/** The in-pod watchdog. The trainer's thread and the ticking thread share one
    dictionary under a lock; the step counter's probe reads it without the lock. */
module Watchdog {
  import opened Verdicts
  import opened Config

  // --- what is shared ---------------------------------------------------------------

  datatype Key = StepKey | UpdatedAt | NowKey | Heartbeats | MaxSteps | PhaseStartedAt | Other(name: string)

  type Local = map<Key, real>

  datatype Memory = Memory(local: Local, phase: Option<string>, baselines: map<string, real>)

  function Get(local: Local, key: Key, default: real): real {
    if key in local then local[key] else default
  }

  /** A call of the trainer's. `extra` are the keyword arguments of `step`. */
  datatype Call =
    | PhaseCall(phase: string)
    | HeartbeatCall
    | StepCall(n: int, maxSteps: Option<int>, extra: Local)
    | BaselineCall(phase: string, seconds: real)

  /** One atomic write. `Stamp` stores what the clock reads at that moment. */
  datatype Write =
    | Put(key: Key, value: real) | Stamp(key: Key) | CountBeat | Merge(extra: Local)
    | EnterPhase(phase: string) | Learn(phase: string, seconds: real)

  /** The writes of a call, in order; the lock is held over all of them. */
  function Program(call: Call): seq<Write> {
    match call
    case PhaseCall(phase) => [EnterPhase(phase), Stamp(PhaseStartedAt), Put(Heartbeats, 0.0)]
    case HeartbeatCall => [CountBeat, Stamp(UpdatedAt), Stamp(NowKey)]
    case StepCall(n, maxSteps, extra) =>
      [Put(StepKey, n as real), Stamp(UpdatedAt), Stamp(NowKey),
       if maxSteps.Some? then Put(MaxSteps, maxSteps.value as real) else Merge(map[]), Merge(extra)]
    case BaselineCall(phase, seconds) => [Learn(phase, seconds)]
  }

  function Written(m: Memory, w: Write, at: real): Memory {
    match w
    case Put(key, value) => m.(local := m.local[key := value])
    case Stamp(key) => m.(local := m.local[key := at])
    case CountBeat => m.(local := m.local[Heartbeats := Get(m.local, Heartbeats, 0.0) + 1.0])
    case Merge(extra) => m.(local := m.local + extra)
    case EnterPhase(phase) => m.(phase := Some(phase))
    case Learn(phase, seconds) => m.(baselines := m.baselines[phase := seconds])
  }

  /** The first `k` writes of a program, write `i` being made at `clock(i)`. */
  function Executed(m: Memory, ws: seq<Write>, clock: nat -> real, k: nat): Memory
    requires k <= |ws|
  {
    if k == 0 then m else Written(Executed(m, ws, clock, k - 1), ws[k - 1], clock(k - 1))
  }

  /** The maximum, if one was passed. */
  function Given(maxSteps: Option<int>): Local {
    if maxSteps.Some? then map[MaxSteps := maxSteps.value as real] else map[]
  }

  lemma GivenIsWritten(m: Memory, maxSteps: Option<int>, at: real)
    ensures Written(m, if maxSteps.Some? then Put(MaxSteps, maxSteps.value as real) else Merge(map[]), at)
            == m.(local := m.local + Given(maxSteps))
  {
    if maxSteps.Some? {
      assert m.local[MaxSteps := maxSteps.value as real] == m.local + Given(maxSteps);
    }
  }

  /** What the five writes of `step` come to. */
  lemma StepWrites(m: Memory, n: int, maxSteps: Option<int>, extra: Local, clock: nat -> real)
    ensures Executed(m, Program(StepCall(n, maxSteps, extra)), clock, 5) ==
              m.(local := m.local[StepKey := n as real][UpdatedAt := clock(1)][NowKey := clock(2)]
                          + Given(maxSteps) + extra)
  {
    hide Executed, Given;
    var ws := Program(StepCall(n, maxSteps, extra));
    StampsWritten(m, ws, n, clock);
    hide Program;
    ExecutedNext(m, ws, clock, 3);
    ExecutedNext(m, ws, clock, 4);
    GivenIsWritten(Executed(m, ws, clock, 3), maxSteps, clock(3));
  }

  lemma StampsWritten(m: Memory, ws: seq<Write>, n: int, clock: nat -> real)
    requires |ws| >= 3 && ws[0] == Put(StepKey, n as real) && ws[1] == Stamp(UpdatedAt) && ws[2] == Stamp(NowKey)
    ensures Executed(m, ws, clock, 3) ==
              m.(local := m.local[StepKey := n as real][UpdatedAt := clock(1)][NowKey := clock(2)])
  {
    hide Executed;
    NothingExecuted(m, ws, clock);
    ExecutedNext(m, ws, clock, 0);
    ExecutedNext(m, ws, clock, 1);
    ExecutedNext(m, ws, clock, 2);
  }

  lemma NothingExecuted(m: Memory, ws: seq<Write>, clock: nat -> real)
    ensures Executed(m, ws, clock, 0) == m
  {
  }

  lemma ExecutedNext(m: Memory, ws: seq<Write>, clock: nat -> real, k: nat)
    requires k < |ws|
    ensures Executed(m, ws, clock, k + 1) == Written(Executed(m, ws, clock, k), ws[k], clock(k))
  {
  }

  /** The step counter's verdict on one consistent view of the memory. */
  function StepStatus(stall: StallThreshold, m: Memory): Status {
    if StepKey !in m.local || UpdatedAt !in m.local then Unknown
    else if Get(m.local, NowKey, 0.0) - m.local[UpdatedAt] > Resolve(stall, m.phase, m.baselines) then Fail
    else Ok
  }

  // --- the object, one call at a time --------------------------------------------------

  class Watchdog {
    const stall: StallThreshold
    var local: Local
    var phase: Option<string>
    var baselines: map<string, real>

    ghost function Abs(): Memory
      reads this
    {
      Memory(local, phase, baselines)
    }

    constructor (stall: StallThreshold, baselines: map<string, real>)
      ensures this.stall == stall && Abs() == Memory(map[], None, baselines)
    {
      this.stall := stall;
      this.baselines := baselines;
      local, phase := map[], None;
    }

    method Phase(name: string, clock: nat -> real)
      modifies this
      ensures Abs() == Executed(old(Abs()), Program(PhaseCall(name)), clock, 3)
      ensures phase == Some(name) && baselines == old(baselines)
      ensures local == old(local)[PhaseStartedAt := clock(1)][Heartbeats := 0.0]
    {
      ghost var before, ws := Abs(), Program(PhaseCall(name));
      phase := Some(name);
      assert Abs() == Executed(before, ws, clock, 1);
      local := local[PhaseStartedAt := clock(1)];
      assert Abs() == Executed(before, ws, clock, 2);
      local := local[Heartbeats := 0.0];
    }

    method Heartbeat(clock: nat -> real)
      modifies this
      ensures Abs() == Executed(old(Abs()), Program(HeartbeatCall), clock, 3)
      ensures phase == old(phase) && baselines == old(baselines)
      ensures local == old(local)[Heartbeats := Get(old(local), Heartbeats, 0.0) + 1.0]
                       [UpdatedAt := clock(1)][NowKey := clock(2)]
    {
      ghost var before, ws := Abs(), Program(HeartbeatCall);
      local := local[Heartbeats := Get(local, Heartbeats, 0.0) + 1.0];
      assert Abs() == Executed(before, ws, clock, 1);
      local := local[UpdatedAt := clock(1)];
      assert Abs() == Executed(before, ws, clock, 2);
      local := local[NowKey := clock(2)];
    }

    method Step(n: int, maxSteps: Option<int>, extra: Local, clock: nat -> real)
      modifies this
      ensures Abs() == Executed(old(Abs()), Program(StepCall(n, maxSteps, extra)), clock, 5)
      ensures phase == old(phase) && baselines == old(baselines)
      ensures local == old(local)[StepKey := n as real][UpdatedAt := clock(1)][NowKey := clock(2)]
                       + (if maxSteps.Some? then map[MaxSteps := maxSteps.value as real] else map[]) + extra
      ensures StepKey !in extra ==> StepKey in local && local[StepKey] == n as real
    {
      hide Executed, Program;
      StepWrites(Abs(), n, maxSteps, extra, clock);
      local := local[StepKey := n as real];
      local := local[UpdatedAt := clock(1)];
      local := local[NowKey := clock(2)];
      ghost var stamped := local;
      if maxSteps.Some? {
        local := local[MaxSteps := maxSteps.value as real];
      }
      assert local == stamped + Given(maxSteps);
      local := local + extra;
    }

    method SetBaseline(name: string, seconds: real)
      modifies this
      ensures Abs() == Executed(old(Abs()), Program(BaselineCall(name, seconds)), (_: nat) => 0.0, 1)
      ensures phase == old(phase) && local == old(local) && baselines == old(baselines)[name := seconds]
    {
      baselines := baselines[name := seconds];
    }

    /** What a tick does under the lock. */
    method StampNow(at: real)
      modifies this
      ensures Abs() == Written(old(Abs()), Stamp(NowKey), at)
      ensures phase == old(phase) && baselines == old(baselines) && local == old(local)[NowKey := at]
    {
      local := local[NowKey := at];
    }

    method CheckStep() returns (status: Status)
      ensures status == StepStatus(stall, Abs())
      ensures status == Unknown <==> StepKey !in local || UpdatedAt !in local
      ensures status == Fail <==> && StepKey in local && UpdatedAt in local
                                  && Get(local, NowKey, 0.0) - local[UpdatedAt] > Resolve(stall, phase, baselines)
      ensures status != Warn
    {
      if StepKey !in local || UpdatedAt !in local {
        return Unknown;
      }
      var age := Get(local, NowKey, 0.0) - local[UpdatedAt];
      var threshold := Resolve(stall, phase, baselines);
      if age > threshold {
        return Fail;
      }
      return Ok;
    }
  }

  // --- both threads, one atomic step at a time -------------------------------------------

  datatype TrainerAt = Out | In(rest: seq<Write>)

  /** What a poll has read so far, in the order it reads. */
  datatype Seen = Nothing | GotStep(there: bool) | GotUpdated(updated: real) | GotNow(updated: real, now: real)

  datatype TickerAt =
    | Resting
    | Holding(stamped: bool)
    | Polling(again: bool, seen: Seen)
    | Waiting(until: real)

  /** A finished poll: what it said, when, and against which threshold. */
  datatype Note = Blind(again: bool) | Judged(again: bool, status: Status, at: real, budget: real)

  datatype State = State(memory: Memory, trainer: TrainerAt, ticker: TickerAt, clock: real, log: seq<Note>)

  datatype World = World(stall: StallThreshold, confirmDelay: real)

  /** The clock is a monotonic one: it never reads less than zero. */
  function Start(baselines: map<string, real>, clock: real): State {
    State(Memory(map[], None, baselines), Out, Resting, clock, [])
  }

  predicate LockFree(s: State) {
    s.trainer.Out? && !s.ticker.Holding?
  }

  datatype Move =
    | Pass(seconds: real)
    | Enter(call: Call) | WriteOne | Leave
    | TakeLock | StampNow | DropLock | Read | Wake

  /** One read of the probe, or its verdict once it has read everything. */
  function ReadOnce(w: World, s: State): State
    requires s.ticker.Polling?
  {
    var again, local := s.ticker.again, s.memory.local;
    match s.ticker.seen
    case Nothing => s.(ticker := Polling(again, GotStep(StepKey in local)))
    case GotStep(there) =>
      if !there || UpdatedAt !in local then s.(ticker := Resting, log := s.log + [Blind(again)])
      else s.(ticker := Polling(again, GotUpdated(local[UpdatedAt])))
    case GotUpdated(updated) => s.(ticker := Polling(again, GotNow(updated, Get(local, NowKey, 0.0))))
    case GotNow(updated, now) =>
      var budget := Resolve(w.stall, s.memory.phase, s.memory.baselines);
      var status := if now - updated > budget then Fail else Ok;
      s.(ticker := if status == Fail && !again then Waiting(s.clock + w.confirmDelay) else Resting,
         log := s.log + [Judged(again, status, s.clock, budget)])
  }

  function Next(w: World, s: State, m: Move): Option<State> {
    match m
    case Pass(seconds) => if seconds < 0.0 then None else Some(s.(clock := s.clock + seconds))
    case Enter(call) => if !LockFree(s) then None else Some(s.(trainer := In(Program(call))))
    case WriteOne =>
      if s.trainer.Out? || s.trainer.rest == [] then None
      else Some(s.(memory := Written(s.memory, s.trainer.rest[0], s.clock), trainer := In(s.trainer.rest[1..])))
    case Leave => if s.trainer != In([]) then None else Some(s.(trainer := Out))
    case TakeLock => if !LockFree(s) || !s.ticker.Resting? then None else Some(s.(ticker := Holding(false)))
    case StampNow =>
      if s.ticker != Holding(false) then None
      else Some(s.(memory := Written(s.memory, Stamp(NowKey), s.clock), ticker := Holding(true)))
    case DropLock => if s.ticker != Holding(true) then None else Some(s.(ticker := Polling(false, Nothing)))
    case Read => if !s.ticker.Polling? then None else Some(ReadOnce(w, s))
    case Wake =>
      if !s.ticker.Waiting? || s.clock < s.ticker.until then None else Some(s.(ticker := Polling(true, Nothing)))
  }

  /** Who may move when: the lock admits one thread at a time, the trainer leaves with its
      writes made, and a poll needs no lock. */
  lemma MayMoveExactly(w: World, s: State, m: Move)
    ensures Next(w, s, m).Some? <==>
              match m
              case Pass(seconds) => seconds >= 0.0
              case Enter(_) => s.trainer.Out? && !s.ticker.Holding?
              case WriteOne => s.trainer.In? && |s.trainer.rest| > 0
              case Leave => s.trainer.In? && |s.trainer.rest| == 0
              case TakeLock => s.trainer.Out? && s.ticker.Resting?
              case StampNow => s.ticker.Holding? && !s.ticker.stamped
              case DropLock => s.ticker.Holding? && s.ticker.stamped
              case Read => s.ticker.Polling?
              case Wake => s.ticker.Waiting? && s.ticker.until <= s.clock
  {
  }

  /** The state a schedule leads to, if every move of it was possible. */
  function Exec(w: World, from: State, moves: seq<Move>): Option<State> {
    if moves == [] then Some(from)
    else
      var k := |moves| - 1;
      var s := Exec(w, from, moves[..k]);
      if s.None? then None else Next(w, s.value, moves[k])
  }

  // --- the phase a verdict is judged in ---------------------------------------------------

  /** The call whose first write is the trainer's next move, if any. */
  function JustEntered(moves: seq<Move>): Option<Call> {
    if moves == [] then None
    else
      var k := |moves| - 1;
      match moves[k]
      case Enter(call) => Some(call)
      case WriteOne | Leave => None
      case _ => JustEntered(moves[..k])
  }

  /** The phase named by the latest `phase` call whose first write has been made. */
  function Declared(moves: seq<Move>): Option<string> {
    if moves == [] then None
    else
      var k := |moves| - 1;
      var call := JustEntered(moves[..k]);
      if moves[k] == WriteOne && call.Some? && call.value.PhaseCall? then Some(call.value.phase)
      else Declared(moves[..k])
  }

  /** The baselines, with every `set_baseline` call that has been made so far. */
  function Learned(baselines: map<string, real>, moves: seq<Move>): map<string, real> {
    if moves == [] then baselines
    else
      var k := |moves| - 1;
      var call := JustEntered(moves[..k]);
      var before := Learned(baselines, moves[..k]);
      if moves[k] == WriteOne && call.Some? && call.value.BaselineCall?
      then before[call.value.phase := call.value.seconds]
      else before
  }

  predicate LeavesContext(w: Write) {
    !w.EnterPhase? && !w.Learn?
  }

  ghost predicate AtItsCall(s: State, moves: seq<Move>) {
    match JustEntered(moves)
    case Some(call) => s.trainer == In(Program(call))
    case None => s.trainer.In? ==> forall i :: 0 <= i < |s.trainer.rest| ==> LeavesContext(s.trainer.rest[i])
  }

  lemma FirstWriteOnly(call: Call)
    ensures Program(call) != []
    ensures forall i :: 0 < i < |Program(call)| ==> LeavesContext(Program(call)[i])
    ensures Program(call)[0] ==
              match call
              case PhaseCall(phase) => EnterPhase(phase)
              case HeartbeatCall => CountBeat
              case StepCall(n, _, _) => Put(StepKey, n as real)
              case BaselineCall(phase, seconds) => Learn(phase, seconds)
  {
  }

  lemma {:induction false} ContextIsDeclared(w: World, baselines: map<string, real>, clock: real, moves: seq<Move>)
    requires Exec(w, Start(baselines, clock), moves).Some?
    ensures var s := Exec(w, Start(baselines, clock), moves).value;
            && s.memory.phase == Declared(moves)
            && s.memory.baselines == Learned(baselines, moves)
            && AtItsCall(s, moves)
  {
    if moves != [] {
      var k := |moves| - 1;
      var before := Exec(w, Start(baselines, clock), moves[..k]).value;
      ContextIsDeclared(w, baselines, clock, moves[..k]);
      ContextStep(w, before, moves);
    }
  }

  /** One move: the context changes with a call's first write and nothing else. */
  lemma ContextStep(w: World, s: State, moves: seq<Move>)
    requires moves != [] && AtItsCall(s, moves[..|moves| - 1]) && Next(w, s, moves[|moves| - 1]).Some?
    ensures var k := |moves| - 1;
            var t, call := Next(w, s, moves[k]).value, JustEntered(moves[..k]);
            && AtItsCall(t, moves)
            && t.memory.phase == (if moves[k] == WriteOne && call.Some? && call.value.PhaseCall?
                                  then Some(call.value.phase) else s.memory.phase)
            && t.memory.baselines == (if moves[k] == WriteOne && call.Some? && call.value.BaselineCall?
                                      then s.memory.baselines[call.value.phase := call.value.seconds]
                                      else s.memory.baselines)
  {
    var call := JustEntered(moves[..|moves| - 1]);
    if call.Some? {
      FirstWriteOnly(call.value);
    }
    hide Program, Resolve;
  }

  /** In every schedule a verdict on the step counter is judged in the phase declared
      last, with every baseline measured so far. */
  lemma JudgedInItsPhase(w: World, baselines: map<string, real>, clock: real, moves: seq<Move>)
    requires Exec(w, Start(baselines, clock), moves).Some?
    requires Exec(w, Start(baselines, clock), moves + [Read]).Some?
    ensures var log := Exec(w, Start(baselines, clock), moves).value.log;
            var now := Exec(w, Start(baselines, clock), moves + [Read]).value.log;
            now == log || (|now| == |log| + 1 && now[..|log|] == log
                           && (now[|log|].Judged? ==>
                                 now[|log|].budget == Resolve(w.stall, Declared(moves), Learned(baselines, moves))))
  {
    ContextIsDeclared(w, baselines, clock, moves);
    assert (moves + [Read])[..|moves|] == moves;
    hide Resolve, Declared, Learned;
  }

  // --- the lock keeps the two stamps in order -----------------------------------------------

  predicate Ordered(local: Local) {
    UpdatedAt in local ==> NowKey in local && local[UpdatedAt] <= local[NowKey]
  }

  predicate Touches(extra: Local) {
    UpdatedAt in extra || NowKey in extra
  }

  /** A call whose keyword arguments leave the two stamps alone. */
  predicate Clean(call: Call) {
    call.StepCall? ==> !Touches(call.extra)
  }

  ghost predicate CleanMoves(moves: seq<Move>) {
    forall i :: 0 <= i < |moves| && moves[i].Enter? ==> Clean(moves[i].call)
  }

  /** `updated_at` is only ever written just before `now`. */
  predicate PairedAt(rest: seq<Write>, i: nat)
    requires i < |rest|
  {
    && (rest[i] == Stamp(UpdatedAt) ==> i + 1 < |rest| && rest[i + 1] == Stamp(NowKey))
    && (rest[i].Put? ==> rest[i].key != UpdatedAt && rest[i].key != NowKey)
    && (rest[i].Merge? ==> !Touches(rest[i].extra))
  }

  ghost predicate Paired(rest: seq<Write>) {
    forall i: nat :: i < |rest| ==> PairedAt(rest, i)
  }

  ghost predicate Inv(s: State) {
    && s.clock >= 0.0
    && (s.trainer.In? ==> !s.ticker.Holding? && Paired(s.trainer.rest))
    && (UpdatedAt in s.memory.local ==> s.memory.local[UpdatedAt] <= s.clock)
    && (NowKey in s.memory.local ==> s.memory.local[NowKey] <= s.clock)
    && (Ordered(s.memory.local) || (s.trainer.In? && s.trainer.rest != [] && s.trainer.rest[0] == Stamp(NowKey)))
  }

  lemma ProgramIsPaired(call: Call)
    requires Clean(call)
    ensures Paired(Program(call))
  {
  }

  lemma PairedTail(rest: seq<Write>)
    requires Paired(rest) && rest != []
    ensures PairedAt(rest, 0) && Paired(rest[1..])
  {
    forall i: nat | i < |rest[1..]| ensures PairedAt(rest[1..], i) {
      assert PairedAt(rest, i + 1);
    }
  }

  lemma WriteKeepsInv(w: World, s: State)
    requires Inv(s) && Next(w, s, WriteOne).Some?
    ensures Inv(Next(w, s, WriteOne).value)
    ensures UpdatedAt in s.memory.local ==>
              UpdatedAt in Next(w, s, WriteOne).value.memory.local
              && Next(w, s, WriteOne).value.memory.local[UpdatedAt] >= s.memory.local[UpdatedAt]
  {
    PairedTail(s.trainer.rest);
    hide Paired;
  }

  /** Every move keeps the invariant, and the last beat is never forgotten. */
  lemma NextKeepsInv(w: World, s: State, m: Move)
    requires Inv(s) && Next(w, s, m).Some? && (m.Enter? ==> Clean(m.call))
    ensures Inv(Next(w, s, m).value)
    ensures UpdatedAt in s.memory.local ==>
              UpdatedAt in Next(w, s, m).value.memory.local
              && Next(w, s, m).value.memory.local[UpdatedAt] >= s.memory.local[UpdatedAt]
  {
    match m {
      case WriteOne => WriteKeepsInv(w, s);
      case Enter(call) => ProgramIsPaired(call);
      case _ =>
    }
  }

  lemma {:induction false} ExecKeepsInv(w: World, from: State, moves: seq<Move>)
    requires Inv(from) && CleanMoves(moves) && Exec(w, from, moves).Some?
    ensures Inv(Exec(w, from, moves).value)
  {
    if moves != [] {
      var k := |moves| - 1;
      ExecKeepsInv(w, from, moves[..k]);
      NextKeepsInv(w, Exec(w, from, moves[..k]).value, moves[k]);
    }
  }

  /** For every schedule: whenever the lock is free, `updated_at` is not later than
      `now`, and `now` not later than the clock. */
  lemma StampsAreOrdered(w: World, baselines: map<string, real>, clock: real, moves: seq<Move>)
    requires clock >= 0.0 && CleanMoves(moves) && Exec(w, Start(baselines, clock), moves).Some?
    ensures var s := Exec(w, Start(baselines, clock), moves).value;
            LockFree(s) ==> Ordered(s.memory.local)
                            && (NowKey in s.memory.local ==> s.memory.local[NowKey] <= s.clock)
  {
    ExecKeepsInv(w, Start(baselines, clock), moves);
  }

  /** Without that condition on the calls it fails, and this is exactly when: the
      keyword arguments of `step` overwrite one stamp and not the order. */
  lemma StepKeepsOrderIff(m: Memory, n: int, maxSteps: Option<int>, extra: Local, clock: nat -> real)
    ensures Ordered(Executed(m, Program(StepCall(n, maxSteps, extra)), clock, 5).local) <==>
              Get(extra, UpdatedAt, clock(1)) <= Get(extra, NowKey, clock(2))
  {
    var ws := Program(StepCall(n, maxSteps, extra));
    var one := Executed(m, ws, clock, 1);
    var two := Executed(m, ws, clock, 2);
    assert two == Written(one, Stamp(UpdatedAt), clock(1));
    var three := Executed(m, ws, clock, 3);
    assert three == Written(two, Stamp(NowKey), clock(2));
    var four := Executed(m, ws, clock, 4);
    assert four.local[UpdatedAt] == clock(1) && four.local[NowKey] == clock(2);
    assert Executed(m, ws, clock, 5) == Written(four, Merge(extra), clock(4));
  }
}
