/** What became of each reading: the record it led to, in every run. */
module LadderFilings {
  import opened Verdicts
  import opened Config
  import opened Ladder
  import opened BatchRefinement
  import opened LadderTraces
  import opened LadderInvariant
  import opened LadderRuns

  /** Event `k` is a reading that was not blind. */
  predicate Heeded(trace: seq<Event>, k: int) {
    0 <= k < |trace| && trace[k].effect.Received? && trace[k].effect.reading.verdict.status != Unknown
  }

  /** The call that took reading `k` raised: its action was never filed, or was
      left to a later reading or to a shutdown. */
  ghost predicate CallRaised(s: State, k: int)
    requires 0 <= k < |s.trace|
  {
    var a := s.trace[k].action;
    || a >= |s.history|
    || IsShutdown(s.history[a])
    || exists j :: k < j < |s.trace| && s.trace[j].effect.Received? && s.trace[j].action == a
  }

  /** The record of a verdict, given whether the re-poll said `fail` too. */
  function FiledAs(env: Env, a: nat, v: Verdict, again: bool): ActionRecord {
    var own := TargetLevel(env.overrides, v);
    if own > NOTIFY && !again then RecordOf(env, a, Downgrade(v), NOTIFY, false)
    else RecordOf(env, a, v, own, own > NOTIFY)
  }

  ghost predicate FiledAt(env: Env, s: State, k: int)
    requires 0 <= k < |s.trace| && s.trace[k].effect.Received?
  {
    var a, v := s.trace[k].action, s.trace[k].effect.reading.verdict;
    if CallRaised(s, k) then v.status == Fail && TargetLevel(env.overrides, v) > NOTIFY
    else s.history[a] == FiledAs(env, a, v, SecondOpinion(env, s.trace, a, v))
  }

  /** No confirmation waits for a record. */
  ghost predicate NoneLeftOver(s: State) {
    forall z :: 0 <= z < |s.trace| && s.trace[z].effect.Repolled? && s.trace[z].effect.saidFail ==>
      s.trace[z].action < |s.history|
  }

  ghost predicate Filed(env: Env, s: State) {
    NoneLeftOver(s) && forall k :: Heeded(s.trace, k) ==> FiledAt(env, s, k)
  }

  // --- what one call adds ---------------------------------------------------------

  ghost predicate Asks(env: Env, asked: seq<Event>, n: nat, count: nat) {
    && (forall i :: 0 <= i < |asked| ==> n <= asked[i].action < n + count)
    && (forall i :: 0 < i < |asked| ==> asked[i].effect.Repolled?)
    && (asked != [] ==> asked[0].effect == Slept(env.failsafe.confirmDelay))
  }

  ghost predicate SaidAgain(asked: seq<Event>, a: nat, probe: Probe) {
    exists z :: 0 <= z < |asked| && asked[z] == Event(a, Repolled(probe, true))
  }

  ghost predicate Acts(stamped: seq<Event>, n: nat, count: nat) {
    forall i :: 0 <= i < |stamped| ==> n <= stamped[i].action < n + count && !Hidden(stamped[i].effect)
  }

  /** A call that heard `rs`, asked again, acted, and filed one record for each. */
  ghost predicate Files(env: Env, s: State, next: State, rs: seq<Reading>, asked: seq<Event>, stamped: seq<Event>) {
    var n := |s.history|;
    && next.trace == s.trace + ReceiveAll(n, rs) + asked + stamped
    && |next.history| == n + |rs| && next.history[..n] == s.history
    && Asks(env, asked, n, |rs|) && Acts(stamped, n, |rs|)
    && forall i :: 0 <= i < |rs| && rs[i].verdict.status != Unknown ==>
         next.history[n + i] == FiledAs(env, n + i, rs[i].verdict, SaidAgain(asked, n + i, rs[i].verdict.probe))
  }

  lemma FiledAsIsNoShutdown(env: Env, a: nat, v: Verdict, again: bool)
    ensures !IsShutdown(FiledAs(env, a, v, again))
  {
    var own := TargetLevel(env.overrides, v);
    HandledIsNotShutdown(env, a, Downgrade(v), NOTIFY, false);
    HandledIsNotShutdown(env, a, v, own, own > NOTIFY);
  }

  /** Nothing a later action adds bears on an older one. */
  lemma OlderIsKept(env: Env, s: State, next: State, added: seq<Event>, k: int)
    requires Filed(env, s) && Heeded(s.trace, k) && s.trace[k].action < |s.history|
    requires next.trace == s.trace + added && |next.history| >= |s.history| && next.history[..|s.history|] == s.history
    requires forall i :: 0 <= i < |added| ==> added[i].action >= |s.history|
    ensures FiledAt(env, next, k)
    ensures CallRaised(next, k) <==> CallRaised(s, k)
  {
    var a, v := s.trace[k].action, s.trace[k].effect.reading.verdict;
    assert forall i :: 0 <= i < |s.trace| ==> next.trace[i] == s.trace[i];
    assert next.history[a] == s.history[a];
    hide FiledAs, TargetLevel, IsShutdown;
    assert FiledAt(env, s, k);
    assert SecondOpinion(env, next.trace, a, v) <==> SecondOpinion(env, s.trace, a, v);
  }

  /** A reading whose call raised stays one when more happens. */
  lemma RaisedStaysRaised(env: Env, s: State, next: State, added: seq<Event>, k: int)
    requires Filed(env, s) && Heeded(s.trace, k) && s.trace[k].action >= |s.history|
    requires next.trace == s.trace + added && CallRaised(next, k)
    ensures FiledAt(env, next, k) && CallRaised(s, k)
  {
    assert next.trace[k] == s.trace[k];
    assert FiledAt(env, s, k);
    hide FiledAs, TargetLevel, IsShutdown;
  }

  /** The readings a call took itself: each has its record. */
  lemma NewIsFiled(
    env: Env, s: State, next: State, rs: seq<Reading>, asked: seq<Event>, stamped: seq<Event>, i: nat)
    requires Filed(env, s) && Files(env, s, next, rs, asked, stamped)
    requires i < |rs| && rs[i].verdict.status != Unknown
    ensures |s.trace| + i < |next.trace| && next.trace[|s.trace| + i] == Event(|s.history| + i, Received(rs[i]))
    ensures FiledAt(env, next, |s.trace| + i) && !CallRaised(next, |s.trace| + i)
  {
    hide FiledAs, TargetLevel, IsShutdown;
    var n, h, v := |s.history|, |s.trace|, rs[i].verdict;
    var a, k := n + i, h + i;
    var t := next.trace;
    assert t[k] == ReceiveAll(n, rs)[i] == Event(a, Received(rs[i]));
    forall j | k < j < |t| ensures !(t[j].effect.Received? && t[j].action == a) {
      if j < h + |rs| {
        assert t[j] == ReceiveAll(n, rs)[j - h];
      } else if j < h + |rs| + |asked| {
        assert t[j] == asked[j - h - |rs|];
      } else {
        assert t[j] == stamped[j - h - |rs| - |asked|];
      }
    }
    FiledAsIsNoShutdown(env, a, v, SaidAgain(asked, a, v.probe));
    SecondedExactly(env, s, next, rs, asked, stamped, i);
  }

  /** Where a call's own events are: first what it heard, then what it asked. */
  lemma Places(env: Env, s: State, next: State, rs: seq<Reading>, asked: seq<Event>, stamped: seq<Event>)
    requires Files(env, s, next, rs, asked, stamped)
    ensures |next.trace| >= |s.trace| + |rs| + |asked|
    ensures forall i :: 0 <= i < |rs| ==> next.trace[|s.trace| + i] == Event(|s.history| + i, Received(rs[i]))
    ensures forall z :: 0 <= z < |asked| ==> next.trace[|s.trace| + |rs| + z] == asked[z]
    ensures forall z :: |s.trace| <= z < |next.trace| && next.trace[z].effect.Repolled? ==>
              0 <= z - |s.trace| - |rs| < |asked| && next.trace[z] == asked[z - |s.trace| - |rs|]
    ensures next.trace[..|s.trace|] == s.trace
    ensures asked != [] ==> asked[0].effect == Slept(env.failsafe.confirmDelay)
  {
    hide FiledAs;
    var h, t, n := |s.trace|, next.trace, |s.history|;
    forall z | h + |rs| + |asked| <= z < |t| ensures !t[z].effect.Repolled? {
      assert t[z] == stamped[z - h - |rs| - |asked|];
    }
    forall i | 0 <= i < |rs| ensures t[h + i] == Event(n + i, Received(rs[i])) {
      assert t[h + i] == ReceiveAll(n, rs)[i];
    }
  }

  lemma SecondedIsSaid(
    env: Env, s: State, next: State, rs: seq<Reading>, asked: seq<Event>, stamped: seq<Event>, i: nat)
    requires NoneLeftOver(s) && Files(env, s, next, rs, asked, stamped) && i < |rs|
    requires SecondOpinion(env, next.trace, |s.history| + i, rs[i].verdict)
    ensures SaidAgain(asked, |s.history| + i, rs[i].verdict.probe)
  {
    hide Files;
    Places(env, s, next, rs, asked, stamped);
    var a, v, t := |s.history| + i, rs[i].verdict, next.trace;
    var z :| 0 <= z < |t| && t[z] == Event(a, Repolled(v.probe, true));
    assert asked[z - |s.trace| - |rs|] == Event(a, Repolled(v.probe, true));
  }

  lemma SaidIsSeconded(
    env: Env, s: State, next: State, rs: seq<Reading>, asked: seq<Event>, stamped: seq<Event>, i: nat)
    requires Files(env, s, next, rs, asked, stamped) && i < |rs|
    requires SaidAgain(asked, |s.history| + i, rs[i].verdict.probe)
    ensures SecondOpinion(env, next.trace, |s.history| + i, rs[i].verdict)
  {
    hide Files;
    Places(env, s, next, rs, asked, stamped);
    var a, v, t := |s.history| + i, rs[i].verdict, next.trace;
    var z :| 0 <= z < |asked| && asked[z] == Event(a, Repolled(v.probe, true));
    var x, y := |s.trace| + i, |s.trace| + |rs|;
    assert t[x] == Event(a, Received(rs[i]));
    assert t[y + 0] == asked[0];
    assert t[y + z] == asked[z];
    assert x < y < y + z;
  }

  lemma SecondedExactly(
    env: Env, s: State, next: State, rs: seq<Reading>, asked: seq<Event>, stamped: seq<Event>, i: nat)
    requires NoneLeftOver(s) && Files(env, s, next, rs, asked, stamped) && i < |rs|
    ensures var a, v := |s.history| + i, rs[i].verdict;
            SecondOpinion(env, next.trace, a, v) <==> SaidAgain(asked, a, v.probe)
  {
    hide *;
    if SecondOpinion(env, next.trace, |s.history| + i, rs[i].verdict) {
      SecondedIsSaid(env, s, next, rs, asked, stamped, i);
    }
    if SaidAgain(asked, |s.history| + i, rs[i].verdict.probe) {
      SaidIsSeconded(env, s, next, rs, asked, stamped, i);
    }
  }

  /** A reading without a record is left to whatever is filed in its place. */
  lemma LeftBehind(
    env: Env, s: State, next: State, rs: seq<Reading>, asked: seq<Event>, stamped: seq<Event>, k: int)
    requires Files(env, s, next, rs, asked, stamped)
    requires 0 <= k < |s.trace| && s.trace[k].action >= |s.history|
    ensures next.trace[k] == s.trace[k] && CallRaised(next, k)
  {
    hide FiledAs, IsShutdown;
    var n, h, a := |s.history|, |s.trace|, s.trace[k].action;
    if a < n + |rs| {
      var j := h + (a - n);
      assert next.trace[j] == ReceiveAll(n, rs)[a - n];
    }
  }

  ghost predicate OnlyOldRaised(s: State, next: State) {
    forall k :: Heeded(next.trace, k) && CallRaised(next, k) ==> k < |s.trace| && Heeded(s.trace, k) && CallRaised(s, k)
  }

  /** A call that files its readings keeps every reading filed. */
  lemma FilingKeepsFiled(
    env: Env, s: State, next: State, rs: seq<Reading>, asked: seq<Event>, stamped: seq<Event>)
    requires Filed(env, s) && Files(env, s, next, rs, asked, stamped) && rs != []
    ensures Filed(env, next) && OnlyOldRaised(s, next)
  {
    hide FiledAs, TargetLevel, IsShutdown, CallRaised, SecondOpinion;
    var n, h, t := |s.history|, |s.trace|, next.trace;
    var added := ReceiveAll(n, rs) + asked + stamped;
    assert t == s.trace + added;
    forall i | 0 <= i < |added| ensures n <= added[i].action < n + |rs| {
      AddedByKind(rs, asked, stamped, n, i);
    }
    forall k | Heeded(t, k) ensures FiledAt(env, next, k) && (CallRaised(next, k) ==> k < h && CallRaised(s, k)) {
      if k < h {
        assert t[k] == s.trace[k] && Heeded(s.trace, k);
        if s.trace[k].action < n {
          OlderIsKept(env, s, next, added, k);
        } else {
          LeftBehind(env, s, next, rs, asked, stamped, k);
          RaisedStaysRaised(env, s, next, added, k);
        }
      } else {
        AddedByKind(rs, asked, stamped, n, k - h);
        assert t[k] == added[k - h];
        NewIsFiled(env, s, next, rs, asked, stamped, k - h);
      }
    }
    forall z | 0 <= z < |t| && t[z].effect.Repolled? && t[z].effect.saidFail ensures t[z].action < |next.history| {
      if z < h {
        assert t[z] == s.trace[z];
      } else {
        assert t[z] == added[z - h];
      }
    }
  }

  lemma AddedByKind(rs: seq<Reading>, asked: seq<Event>, stamped: seq<Event>, n: nat, i: int)
    requires 0 <= i < |rs| + |asked| + |stamped|
    requires forall j :: 0 <= j < |asked| ==> n <= asked[j].action < n + |rs| && !asked[j].effect.Received?
    requires Acts(stamped, n, |rs|)
    ensures var added := ReceiveAll(n, rs) + asked + stamped;
            && n <= added[i].action < n + |rs|
            && (added[i].effect.Received? ==> i < |rs| && added[i] == Event(n + i, Received(rs[i])))
  {
    var added := ReceiveAll(n, rs) + asked + stamped;
    if i < |rs| {
      assert added[i] == ReceiveAll(n, rs)[i];
    } else if i < |rs| + |asked| {
      assert added[i] == asked[i - |rs|];
    } else {
      assert added[i] == stamped[i - |rs| - |asked|];
    }
  }

  /** A call that raised files nothing; what it heard and asked stays behind. */
  lemma RaisingKeepsFiled(env: Env, s: State, next: State, r: Reading, asked: seq<Event>)
    requires Filed(env, s) && next.history == s.history
    requires next.trace == s.trace + ([Event(|s.history|, Received(r))] + asked)
    requires forall i :: 0 <= i < |asked| ==>
               && asked[i].action == |s.history| && !asked[i].effect.Received?
               && (asked[i].effect.Repolled? ==> !asked[i].effect.saidFail)
    requires r.verdict.status == Fail && TargetLevel(env.overrides, r.verdict) > NOTIFY
    ensures Filed(env, next)
    ensures forall k :: Heeded(next.trace, k) && CallRaised(next, k) ==>
              k == |s.trace| || (k < |s.trace| && Heeded(s.trace, k) && CallRaised(s, k))
  {
    var n, h, t := |s.history|, |s.trace|, next.trace;
    var added := [Event(n, Received(r))] + asked;
    assert forall i :: 0 <= i < |added| ==> t[h + i] == added[i];
    assert forall z :: h <= z < |t| ==> t[z] == added[z - h];
    forall k | Heeded(t, k) ensures FiledAt(env, next, k) && (CallRaised(next, k) && k != h ==> CallRaised(s, k))
    {
      hide FiledAs, TargetLevel, IsShutdown, SecondOpinion;
      if k < h {
        assert t[k] == s.trace[k] && Heeded(s.trace, k);
        if s.trace[k].action < n {
          OlderIsKept(env, s, next, added, k);
        } else {
          RaisedStaysRaised(env, s, next, added, k);
        }
      } else {
        assert t[k] == added[k - h];
        assert k == h;
      }
    }
    forall z | 0 <= z < |t| && t[z].effect.Repolled? && t[z].effect.saidFail ensures t[z].action < n {
      assert z < h ==> t[z] == s.trace[z];
    }
  }

  lemma ShutdownKeepsFiled(env: Env, s: State, crashed: bool, action: Option<TerminalAction>)
    requires Filed(env, s)
    ensures Filed(env, Shutdown(env, s, crashed, action)) && OnlyOldRaised(s, Shutdown(env, s, crashed, action))
  {
    var n, h, next, act := |s.history|, |s.trace|, Shutdown(env, s, crashed, action), ChosenAction(env, action);
    var effects := ShutdownEffects(env, n, crashed, act);
    ShutdownEffectsAreVisible(env, n, crashed, act);
    var added, t := Stamp(n, effects), next.trace;
    assert IsShutdown(next.history[n]);
    hide ShutdownEffects, Shutdown, TargetLevel, SecondOpinion, IsShutdown;
    assert forall i :: 0 <= i < |added| ==> added[i].action == n && !Hidden(added[i].effect);
    assert forall z :: h <= z < |t| ==> t[z] == added[z - h];
    forall k | Heeded(t, k)
      ensures FiledAt(env, next, k) && (CallRaised(next, k) ==> k < h && Heeded(s.trace, k) && CallRaised(s, k))
    {
      assert t[k] == s.trace[k];
      if s.trace[k].action < n {
        OlderIsKept(env, s, next, added, k);
      } else {
        RaisedStaysRaised(env, s, next, added, k);
      }
    }
    forall z | 0 <= z < |t| && t[z].effect.Repolled? && t[z].effect.saidFail ensures t[z].action < |next.history| {
      assert z < h ==> t[z] == s.trace[z];
    }
  }

  // --- what a call of each kind files -------------------------------------------------

  function SettledAs(env: Env, a: nat, d: Decision, c: bool): ActionRecord {
    if d.target > NOTIFY && !c then RecordOf(env, a, Downgrade(d.promoted), NOTIFY, false)
    else RecordOf(env, a, d.promoted, d.target, c)
  }

  lemma SettleFiles(env: Env, s: State, d: Decision, c: bool) returns (stamped: seq<Event>)
    ensures var next := Settle(env, s, d, c);
            && next.trace == s.trace + stamped && Acts(stamped, |s.history|, 1)
            && next.history == s.history + [SettledAs(env, |s.history|, d, c)]
  {
    var v, target := if d.target > NOTIFY && !c then Downgrade(d.promoted) else d.promoted,
                     if d.target > NOTIFY && !c then NOTIFY else d.target;
    EffectsAreVisible(env, |s.history|, v, target);
    hide ExecuteEffects, RecordOf, Downgrade;
    stamped := Stamp(|s.history|, ExecuteEffects(env, |s.history|, v, target));
  }

  /** A decision on a verdict that was not blind is that verdict at its own level; one
      on a blind verdict never asks for more than a message. */
  predicate Plain(env: Env, d: Decision, v: Verdict) {
    if v.status == Unknown then d.target <= NOTIFY && d.promoted.probe == v.probe
    else d == Decision(v, TargetLevel(env.overrides, v))
  }

  lemma SeenIsDecidedPlainly(env: Env, m: Memory, r: Reading)
    ensures Plain(env, Decide(env, m, r), r.verdict)
  {
  }

  lemma {:induction false} SweepIsDecidedPlainly(env: Env, m: Memory, rs: seq<Reading>)
    ensures forall i :: 0 <= i < |rs| ==> Plain(env, DecideAll(env, m, rs)[i], rs[i].verdict)
    decreases |rs|
  {
    if rs != [] {
      SeenIsDecidedPlainly(env, m, rs[0]);
      SweepIsDecidedPlainly(env, DecideMemory(m, rs[0]), rs[1..]);
      hide Decide, Plain;
    }
  }

  /** A plain decision is settled as its verdict is to be filed. */
  lemma PlainIsFiled(env: Env, a: nat, d: Decision, v: Verdict, c: bool)
    requires Plain(env, d, v) && v.status != Unknown && (c ==> d.target > NOTIFY)
    ensures SettledAs(env, a, d, c) == FiledAs(env, a, v, c)
  {
  }

  lemma HandleFiles(env: Env, s: State, r: Reading, poll: Option<Poll>)
    returns (asked: seq<Event>, stamped: seq<Event>)
    requires !HandleCrashes(env, s, r, poll)
    ensures Files(env, s, Handle(env, s, r, poll), [r], asked, stamped)
  {
    var n, d, v := |s.history|, Decide(env, s.memory, r), r.verdict;
    SeenIsDecidedPlainly(env, s.memory, r);
    hide Decide, DecideMemory, Settle, RecordOf, Downgrade, Plain, FiledAs, SettledAs, SaysFail;
    var c := d.target > NOTIFY && poll.Some? && SaysFail(poll.value);
    asked := if d.target > NOTIFY && poll.Some? then ConfirmEvents(env, n, d.promoted.probe, poll.value) else [];
    var heard := Receive(s, n, r);
    var polled := heard.(trace := heard.trace + asked);
    assert asked == [] ==> polled == heard;
    stamped := SettleFiles(env, polled, d, c);
    assert ReceiveAll(n, [r]) == [Event(n, Received(r))];
    if v.status != Unknown {
      PlainNames(env, d, v);
      PlainIsFiled(env, n, d, v, c);
      assert c ==> asked[1] == Event(n, Repolled(v.probe, true));
      assert SaidAgain(asked, n, v.probe) <==> c;
    }
  }

  lemma PlainNames(env: Env, d: Decision, v: Verdict)
    requires Plain(env, d, v) && v.status != Unknown
    ensures d.promoted == v
  {
  }

  ghost predicate SettledAll(
    env: Env, before: seq<ActionRecord>, now: seq<ActionRecord>, ds: seq<Decision>, recheck: Option<Verdict -> Poll>)
  {
    var n := |before|;
    && |now| == n + |ds| && now[..n] == before
    && forall i :: 0 <= i < |ds| ==> now[n + i] == SettledAs(env, n + i, ds[i], Confirms(ds[i], recheck))
  }

  lemma SettledFirst(
    env: Env, before: seq<ActionRecord>, now: seq<ActionRecord>, ds: seq<Decision>, recheck: Option<Verdict -> Poll>)
    requires ds != []
    requires var first := SettledAs(env, |before|, ds[0], Confirms(ds[0], recheck));
             SettledAll(env, before + [first], now, ds[1..], recheck)
    ensures SettledAll(env, before, now, ds, recheck)
  {
    hide SettledAs, Confirms;
    var n := |before|;
    assert now[..n] == now[..n + 1][..n] && now[n] == now[..n + 1][n];
    forall i | 0 <= i < |ds| ensures now[n + i] == SettledAs(env, n + i, ds[i], Confirms(ds[i], recheck)) {
      assert i > 0 ==> ds[1..][i - 1] == ds[i] && now[n + 1 + (i - 1)] == now[n + i];
    }
  }

  lemma {:induction false} SettleAllFiles(
    env: Env, s: State, ds: seq<Decision>, recheck: Option<Verdict -> Poll>) returns (stamped: seq<Event>)
    ensures var next := SettleAll(env, s, ds, recheck);
            && next.trace == s.trace + stamped && Acts(stamped, |s.history|, |ds|)
            && SettledAll(env, s.history, next.history, ds, recheck)
    decreases |ds|
  {
    stamped := [];
    if ds != [] {
      hide Settle, SettledAs, Confirms, Hidden, SettledAll;
      var c := Confirms(ds[0], recheck);
      var first := SettleFiles(env, s, ds[0], c);
      var mid := Settle(env, s, ds[0], c);
      var rest := SettleAllFiles(env, mid, ds[1..], recheck);
      stamped := first + rest;
      SettledFirst(env, s.history, SettleAll(env, s, ds, recheck).history, ds, recheck);
    }
  }

  /** A re-poll of the sweep belongs to a decision that wanted to escalate. */
  predicate Theirs(n: nat, ds: seq<Decision>, recheck: Verdict -> Poll, e: Event) {
    && n <= e.action < n + |ds| && e.effect.Repolled?
    && ds[e.action - n].target > NOTIFY
    && e.effect.saidFail == SaysFail(recheck(ds[e.action - n].promoted))
  }

  lemma TheirsStill(n: nat, ds: seq<Decision>, recheck: Verdict -> Poll, e: Event)
    requires ds != [] && Theirs(n, ds[..|ds| - 1], recheck, e)
    ensures Theirs(n, ds, recheck, e)
  {
  }

  lemma {:induction false} RepollsAreTheirs(n: nat, ds: seq<Decision>, recheck: Verdict -> Poll)
    ensures forall z :: 0 <= z < |RepollAll(n, ds, recheck)| ==> Theirs(n, ds, recheck, RepollAll(n, ds, recheck)[z])
    decreases |ds|
  {
    if ds != [] {
      var k := |ds| - 1;
      var earlier, all := RepollAll(n, ds[..k], recheck), RepollAll(n, ds, recheck);
      RepollsAreTheirs(n, ds[..k], recheck);
      assert ds[k].target > NOTIFY ==> Theirs(n, ds, recheck, all[|earlier|]);
      hide Theirs, SaysFail;
      forall z | 0 <= z < |all| ensures Theirs(n, ds, recheck, all[z]) {
        if z < |earlier| {
          TheirsStill(n, ds, recheck, earlier[z]);
        }
      }
    }
  }

  /** A verdict of the sweep was said again exactly when it counts as confirmed. */
  lemma SweepIsSaidAgain(env: Env, n: nat, ds: seq<Decision>, recheck: Option<Verdict -> Poll>, i: nat)
    requires i < |ds|
    ensures Asks(env, BatchConfirmEvents(env, n, ds, recheck), n, |ds|)
    ensures var asked := BatchConfirmEvents(env, n, ds, recheck);
            SaidAgain(asked, n + i, ds[i].promoted.probe) <==> Confirms(ds[i], recheck)
  {
    var asked := BatchConfirmEvents(env, n, ds, recheck);
    if recheck.Some? {
      RepollsAreTheirs(n, ds, recheck.value);
      if Confirms(ds[i], recheck) {
        var z := RepollIsFiled(n, ds, recheck.value, i);
        assert asked[z + 1] == Event(n + i, Repolled(ds[i].promoted.probe, true));
      }
    }
    hide RepollAll, SaysFail;
  }

  lemma BatchFiles(env: Env, s: State, rs: seq<Reading>, recheck: Option<Verdict -> Poll>)
    returns (asked: seq<Event>, stamped: seq<Event>)
    requires rs != []
    ensures Files(env, s, Batch(env, s, rs, recheck), rs, asked, stamped)
  {
    var n, ds := |s.history|, DecideAll(env, s.memory, rs);
    SweepIsDecidedPlainly(env, s.memory, rs);
    hide DecideAll, DecideAllMemory, SettleAll, BatchConfirmEvents, ReceiveAll, Plain, FiledAs, SettledAs, Confirms;
    hide SaidAgain, Asks, Acts;
    asked := BatchConfirmEvents(env, n, ds, recheck);
    var heard := ReceiveSweep(s, rs);
    var polled := heard.(trace := heard.trace + asked);
    stamped := SettleAllFiles(env, polled, ds, recheck);
    SweepIsSaidAgain(env, n, ds, recheck, 0);
    forall i | 0 <= i < |rs| && rs[i].verdict.status != Unknown
      ensures SettledAs(env, n + i, ds[i], Confirms(ds[i], recheck))
              == FiledAs(env, n + i, rs[i].verdict, SaidAgain(asked, n + i, rs[i].verdict.probe))
    {
      SweepIsSaidAgain(env, n, ds, recheck, i);
      PlainNames(env, ds[i], rs[i].verdict);
      ConfirmsOnlyEscalations(ds[i], recheck);
      PlainIsFiled(env, n + i, ds[i], rs[i].verdict, Confirms(ds[i], recheck));
    }
  }

  lemma ConfirmsOnlyEscalations(d: Decision, recheck: Option<Verdict -> Poll>)
    ensures Confirms(d, recheck) ==> d.target > NOTIFY
  {
  }

  // --- one call, from any state ---------------------------------------------------------

  lemma SettledEscalatesIff(env: Env, a: nat, d: Decision, c: bool)
    requires c ==> d.target > NOTIFY
    ensures var r := SettledAs(env, a, d, c);
            (r.level > NOTIFY <==> c) && (r.confirmed <==> c) && r.verdict.probe == d.promoted.probe
  {
  }

  /** Rule 1 for one verdict: its record goes past a message exactly when it said `fail`,
      may go that far, and was asked again and said `fail` again. */
  lemma HandleEscalatesIff(env: Env, s: State, r: Reading, poll: Option<Poll>)
    requires !HandleCrashes(env, s, r, poll)
    ensures var n, next := |s.history|, Handle(env, s, r, poll);
            var p := r.verdict.probe;
            var own := if p in env.overrides then env.overrides[p] else DefaultLevel(p);
            && |next.history| == n + 1 && next.history[..n] == s.history
            && next.history[n].verdict.probe == p
            && (next.history[n].confirmed <==> next.history[n].level > NOTIFY)
            && (next.history[n].level > NOTIFY <==>
                  && r.verdict.status == Fail && own > NOTIFY
                  && poll.Some? && poll.value.Answered? && poll.value.verdict.status == Fail)
  {
    var n, d := |s.history|, Decide(env, s.memory, r);
    SeenIsDecidedPlainly(env, s.memory, r);
    hide Decide, DecideMemory, Settle, SettledAs, ConfirmEvents;
    var c := d.target > NOTIFY && poll.Some? && SaysFail(poll.value);
    var heard := Receive(s, n, r);
    var events := if d.target > NOTIFY && poll.Some? then ConfirmEvents(env, n, d.promoted.probe, poll.value) else [];
    var polled := heard.(trace := heard.trace + events);
    assert events == [] ==> polled == heard;
    var acted := SettleFiles(env, polled, d, c);
    SettledEscalatesIff(env, n, d, c);
  }

  /** Rule 1 for a sweep, verdict by verdict. */
  lemma BatchEscalatesIff(env: Env, s: State, rs: seq<Reading>, recheck: Option<Verdict -> Poll>, i: nat)
    requires i < |rs|
    ensures var n, next := |s.history|, Batch(env, s, rs, recheck);
            var v := rs[i].verdict;
            var own := if v.probe in env.overrides then env.overrides[v.probe] else DefaultLevel(v.probe);
            && |next.history| == n + |rs| && next.history[..n] == s.history
            && next.history[n + i].verdict.probe == v.probe
            && (next.history[n + i].confirmed <==> next.history[n + i].level > NOTIFY)
            && (next.history[n + i].level > NOTIFY <==>
                  && v.status == Fail && own > NOTIFY && recheck.Some?
                  && recheck.value(v).Answered? && recheck.value(v).verdict.status == Fail)
  {
    var n, ds := |s.history|, DecideAll(env, s.memory, rs);
    SweepIsDecidedPlainly(env, s.memory, rs);
    hide DecideAll, DecideAllMemory, SettleAll, BatchConfirmEvents, ReceiveAll, SettledAs;
    var heard := ReceiveSweep(s, rs);
    var polled := heard.(trace := heard.trace + BatchConfirmEvents(env, n, ds, recheck));
    var stamped := SettleAllFiles(env, polled, ds, recheck);
    SettledEscalatesIff(env, n + i, ds[i], Confirms(ds[i], recheck));
  }

  /** A shutdown asks for a checkpoint without waiting for it, tells, and ends in the kill
      it was told to make, or else the one configured; that, and nothing else, sets the
      latch. */
  lemma ShutdownExactly(env: Env, s: State, crashed: bool, action: Option<TerminalAction>)
    ensures var n, next := |s.history|, Shutdown(env, s, crashed, action);
            var chosen := if action.Some? then action.value else env.failsafe.onTerminal;
            var verdict := Verdict(ShutdownGuard, if crashed then Fail else Ok, map[]);
            var reachable := env.runpod && env.podId != "";
            && next.history == s.history
                 + [ActionRecord(verdict, TERMINATE, true, [LogStep, NotifyStep, TerminateStep(chosen)])]
            && next.memory == s.memory && next.haltRequested == s.haltRequested
            && (next.terminated <==> s.terminated || (reachable && !env.calls(n).killRaises))
            && |s.trace| < |next.trace| && next.trace[..|s.trace|] == s.trace
            && var did := next.trace[|s.trace|..];
            && (forall i :: 0 <= i < |did| ==> did[i].action == n)
            && did[|did| - 1].effect == (if reachable then Killed(chosen, env.calls(n).killRaises) else KillImpossible)
            && ((exists i :: 0 <= i < |did| && did[i].effect.CheckpointRequested?) <==> env.trainer)
            && (forall i :: 0 <= i < |did| ==> !did[i].effect.CheckpointWaited?)
            && (exists i :: 0 <= i < |did| && did[i].effect == Notified(verdict, TERMINATE))
  {
    var n, act := |s.history|, ChosenAction(env, action);
    ShutdownDoes(env, n, crashed, act);
    hide ShutdownEffects;
    assert Shutdown(env, s, crashed, action).trace[|s.trace|..] == Stamp(n, ShutdownEffects(env, n, crashed, act));
  }

  lemma ShutdownDoes(env: Env, n: nat, crashed: bool, action: TerminalAction)
    ensures var did := Stamp(n, ShutdownEffects(env, n, crashed, action));
            var reachable := env.runpod && env.podId != "";
            && did != []
            && did[|did| - 1].effect == (if reachable then Killed(action, env.calls(n).killRaises) else KillImpossible)
            && ((exists i :: 0 <= i < |did| && did[i].effect.CheckpointRequested?) <==> env.trainer)
            && (forall i :: 0 <= i < |did| ==> !did[i].effect.CheckpointWaited?)
            && (exists i :: 0 <= i < |did| && did[i].effect == Notified(ShutdownVerdict(crashed), TERMINATE))
  {
    var effects := ShutdownEffects(env, n, crashed, action);
    var did := Stamp(n, effects);
    assert did[|did| - 1].effect == effects[|effects| - 1];
    assert env.trainer ==> did[1].effect == CheckpointRequested(env.calls(n).requestRaises);
    assert did[if env.trainer then 2 else 1].effect == Notified(ShutdownVerdict(crashed), TERMINATE);
  }

  // --- every run ---------------------------------------------------------------------

  /** Some `handle` of this reading was given a re-poll that returns no verdict. */
  ghost predicate CutShort(ops: seq<Op>, r: Reading) {
    exists i :: 0 <= i < |ops| && ops[i].HandleOp? && ops[i].reading == r && ops[i].poll == Some(NoAnswer)
  }

  /** Handling raises exactly on a `fail` that may go past L1 and a re-poll that
      returns no verdict. */
  lemma HandlingRaisesIff(env: Env, s: State, r: Reading, poll: Option<Poll>)
    ensures HandleCrashes(env, s, r, poll) <==>
              && r.verdict.status == Fail
              && (if r.verdict.probe in env.overrides then env.overrides[r.verdict.probe]
                  else DefaultLevel(r.verdict.probe)) > NOTIFY
              && poll == Some(NoAnswer)
  {
  }

  lemma HandleKeepsFiled(env: Env, s: State, r: Reading, poll: Option<Poll>)
    requires Filed(env, s)
    ensures var next := Handle(env, s, r, poll);
            && Filed(env, next)
            && forall k :: Heeded(next.trace, k) && CallRaised(next, k) ==>
                 || (k < |s.trace| && Heeded(s.trace, k) && CallRaised(s, k))
                 || (next.trace[k].effect.reading == r && poll == Some(NoAnswer))
  {
    var next := Handle(env, s, r, poll);
    if HandleCrashes(env, s, r, poll) {
      var asked := ConfirmEvents(env, |s.history|, r.verdict.probe, NoAnswer);
      HandlingRaisesIff(env, s, r, poll);
      assert next.trace == s.trace + ([Event(|s.history|, Received(r))] + asked);
      hide Filed, CallRaised, Handle, TargetLevel;
      RaisingKeepsFiled(env, s, next, r, asked);
    } else {
      hide Filed, CallRaised, Handle, Files;
      var asked, stamped := HandleFiles(env, s, r, poll);
      FilingKeepsFiled(env, s, next, [r], asked, stamped);
    }
  }

  lemma {:induction false} RunIsFiled(env: Env, ops: seq<Op>)
    ensures Filed(env, Run(env, ops))
    ensures forall k :: Heeded(Run(env, ops).trace, k) && CallRaised(Run(env, ops), k) ==>
              CutShort(ops, Run(env, ops).trace[k].effect.reading)
  {
    if ops != [] {
      var m := |ops| - 1;
      var s, next := Run(env, ops[..m]), Run(env, ops);
      RunIsFiled(env, ops[..m]);
      hide Filed, CallRaised, Handle, Batch, Shutdown, Files;
      match ops[m] {
        case HandleOp(r, poll) => HandleKeepsFiled(env, s, r, poll);
        case BatchOp(rs, recheck) =>
          if rs == [] {
            EmptyBatchDoesNothing(env, s, recheck);
          } else {
            var asked, stamped := BatchFiles(env, s, rs, recheck);
            FilingKeepsFiled(env, s, next, rs, asked, stamped);
          }
        case ShutdownOp(crashed, action) => ShutdownKeepsFiled(env, s, crashed, action);
      }
    }
  }

  lemma EmptyBatchDoesNothing(env: Env, s: State, recheck: Option<Verdict -> Poll>)
    ensures Batch(env, s, [], recheck) == s
  {
    assert s.trace + ReceiveAll(|s.history|, []) == s.trace;
  }

  /** Good news is a line in the log and nothing else. */
  lemma OkIsLogged(env: Env, ops: seq<Op>, k: nat)
    requires Heeded(Run(env, ops).trace, k) && Run(env, ops).trace[k].effect.reading.verdict.status == Ok
    ensures var s := Run(env, ops);
            var a, v := s.trace[k].action, s.trace[k].effect.reading.verdict;
            && a < |s.history|
            && s.history[a] == ActionRecord(v, LOG, false, [LogStep])
            && Of(s.trace, a) == [Logged(v)]
  {
    var s := Run(env, ops);
    var a := s.trace[k].action;
    RunIsFiled(env, ops);
    RunIsGood(env, ops);
    assert FiledAt(env, s, k);
    assert HandledExactly(env, s, a);
  }

  /** A warning is one message, sent as it was heard. */
  lemma WarnIsNotified(env: Env, ops: seq<Op>, k: nat)
    requires Heeded(Run(env, ops).trace, k) && Run(env, ops).trace[k].effect.reading.verdict.status == Warn
    ensures var s := Run(env, ops);
            var a, v := s.trace[k].action, s.trace[k].effect.reading.verdict;
            && a < |s.history|
            && s.history[a] == ActionRecord(v, NOTIFY, false, [LogStep, NotifyStep])
            && Of(s.trace, a) == [Logged(v), Notified(v, NOTIFY)]
  {
    var s := Run(env, ops);
    var a := s.trace[k].action;
    RunIsFiled(env, ops);
    RunIsGood(env, ops);
    assert FiledAt(env, s, k);
    assert HandledExactly(env, s, a);
  }

  /** A `fail` goes to its own level exactly as heard, if that is no further than a
      message or if its second opinion is in the trace. Otherwise it becomes one
      message, a warning marked as unconfirmed; unless its call raised, which takes a
      re-poll with no verdict. */
  lemma FailIsFiled(env: Env, ops: seq<Op>, k: nat)
    requires Heeded(Run(env, ops).trace, k) && Run(env, ops).trace[k].effect.reading.verdict.status == Fail
    ensures var s := Run(env, ops);
            var a, r := s.trace[k].action, s.trace[k].effect.reading;
            var v := r.verdict;
            var own := if v.probe in env.overrides then env.overrides[v.probe] else DefaultLevel(v.probe);
            if CallRaised(s, k) then own > NOTIFY && CutShort(ops, r)
            else if own <= NOTIFY || SecondOpinion(env, s.trace, a, v) then
              var saved := env.trainer && !env.calls(a).requestRaises && env.calls(a).wait == Saved;
              && s.history[a].verdict == v
              && s.history[a].level == (if own == HALT && !saved then TERMINATE else own)
              && (s.history[a].confirmed <==> own > NOTIFY)
            else
              var w := Verdict(v.probe, Warn, v.evidence["confirmed" := "False"]);
              && s.history[a] == ActionRecord(w, NOTIFY, false, [LogStep, NotifyStep])
              && Of(s.trace, a) == [Logged(w), Notified(w, NOTIFY)]
  {
    var s := Run(env, ops);
    var a := s.trace[k].action;
    RunIsFiled(env, ops);
    RunIsGood(env, ops);
    assert FiledAt(env, s, k);
    if !CallRaised(s, k) {
      assert HandledExactly(env, s, a);
    }
  }
}
