/** Real-time bounds on a watch: how late the dead man's switch can be, and how
    far past its cap the spend can run. */
module SentinelBounds {
  import opened Verdicts
  import opened Ladder
  import opened LadderInvariant
  import opened Sentinel
  import opened SentinelRuns

  // --- the clock --------------------------------------------------------------------

  /** Within a sweep the clock only moves forward, and a sweep (its confirmation
      wait and `_finished` included) takes at most `d`. */
  predicate InOrder(w: Sweep, d: real) {
    && w.begin <= w.firstLook <= w.secondLook <= w.lastLook <= w.end
    && w.end - w.begin <= d
  }

  /** Sweeps follow one another with one sleep of `p` in between. */
  ghost predicate Timely(ws: seq<Sweep>, p: real, d: real) {
    && (forall i :: 0 <= i < |ws| ==> InOrder(ws[i], d))
    && (forall i :: 0 <= i < |ws| - 1 ==> ws[i + 1].begin == ws[i].end + p)
  }

  lemma {:induction false} SweepsTakeTime(ws: seq<Sweep>, p: real, d: real, i: nat)
    requires Timely(ws, p, d) && i < |ws|
    ensures ws[i].begin >= ws[0].begin + i as real * p
  {
    if i > 0 {
      SweepsTakeTime(ws, p, d, i - 1);
      assert i as real * p == (i - 1) as real * p + p;
      assert ws[i - 1 + 1].begin == ws[i - 1].end + p;
    }
  }

  // --- the dead man's switch -----------------------------------------------------------

  /** Sweep `i` ran to its end and reached an upstream. */
  predicate Hears(env: SentinelEnv, s: Watch, ws: seq<Sweep>, i: nat)
    requires i < |ws|
  {
    Contacted(ws[i]) && !LateStart(env, After(env, s, ws[..i]), ws[i])
  }

  /** `t` is when an upstream was last heard during `ws`, if it was at all. */
  ghost predicate LastHeardAt(env: SentinelEnv, s: Watch, ws: seq<Sweep>, t: real) {
    || (t == s.lastContact && forall i: nat :: i < |ws| ==> !Hears(env, s, ws, i))
    || (exists i: nat :: && i < |ws| && Hears(env, s, ws, i) && t == ws[i].lastLook
                         && forall j: nat :: i < j < |ws| ==> !Hears(env, s, ws, j))
  }

  lemma ContactStep(env: SentinelEnv, s: Watch, ws: seq<Sweep>)
    requires ws != []
    ensures var k := |ws| - 1;
            After(env, s, ws).lastContact ==
              if Hears(env, s, ws, k) then ws[k].lastLook else After(env, s, ws[..k]).lastContact
  {
    hide Batch, Handle, Shutdown;
  }

  lemma HearingIsLocal(env: SentinelEnv, s: Watch, ws: seq<Sweep>, k: nat, i: nat)
    requires i < k <= |ws|
    ensures Hears(env, s, ws[..k], i) == Hears(env, s, ws, i)
  {
    assert ws[..k][..i] == ws[..i];
  }

  lemma LastHeardStep(env: SentinelEnv, s: Watch, ws: seq<Sweep>, t: real)
    requires ws != [] && LastHeardAt(env, s, ws[..|ws| - 1], t)
    ensures LastHeardAt(env, s, ws, if Hears(env, s, ws, |ws| - 1) then ws[|ws| - 1].lastLook else t)
  {
    hide Hears;
    var k := |ws| - 1;
    forall i: nat | i < k ensures Hears(env, s, ws[..k], i) == Hears(env, s, ws, i) {
      HearingIsLocal(env, s, ws, k, i);
    }
    if !Hears(env, s, ws, k) && !(t == s.lastContact && forall i: nat :: i < k ==> !Hears(env, s, ws, i)) {
      var i: nat :| i < k && Hears(env, s, ws[..k], i) && t == ws[..k][i].lastLook
                    && forall j: nat :: i < j < k ==> !Hears(env, s, ws[..k], j);
      assert Hears(env, s, ws, i) && t == ws[i].lastLook;
    }
  }

  lemma {:induction false} LastContactIsExact(env: SentinelEnv, s: Watch, ws: seq<Sweep>)
    ensures LastHeardAt(env, s, ws, After(env, s, ws).lastContact)
  {
    if ws != [] {
      hide LastHeardAt, Tick, After, Hears;
      var k := |ws| - 1;
      LastContactIsExact(env, s, ws[..k]);
      ContactStep(env, s, ws);
      LastHeardStep(env, s, ws, After(env, s, ws[..k]).lastContact);
    }
  }

  /** No early firing, and no missed one: a sweep that gets past the startup check
      is ended by the switch exactly when neither upstream answered in it and the
      last time one did is at least the timeout ago. */
  lemma SwitchFiresExactly(env: SentinelEnv, s: Watch, ws: seq<Sweep>, w: Sweep)
    requires !LateStart(env, After(env, s, ws), w)
    ensures var since := After(env, s, ws).lastContact;
            var outcome := Tick(env, After(env, s, ws), w).1;
            && LastHeardAt(env, s, ws, since)
            && outcome.Returned?
            && (outcome.value.terminated <==>
                  !w.podAnswers && !w.runAnswers && w.lastLook - since >= env.cfg.failsafe.deadMansTimeout)
  {
    LastContactIsExact(env, s, ws);
    hide LastHeardAt, After, Batch, Handle, Shutdown, LateStart;
  }

  /** Nothing answers anything: no status, no state, no summary. */
  predicate Blind(w: Sweep) {
    !w.podAnswers && !w.runAnswers && w.firstSummary == NoSummary && w.secondSummary == NoSummary && w.runEnded.None?
  }

  ghost predicate AllBlind(ws: seq<Sweep>) {
    forall i :: 0 <= i < |ws| ==> Blind(ws[i])
  }

  /** A blind sweep never raises, and one that comes too late kills. */
  lemma BlindTick(env: SentinelEnv, s: Watch, w: Sweep, d: real)
    requires Blind(w) && InOrder(w, d)
    ensures Tick(env, s, w).1.Returned?
    ensures LateStart(env, s, w) || w.lastLook - s.lastContact >= env.cfg.failsafe.deadMansTimeout ==>
              Tick(env, s, w).1.value.terminated
    ensures Tick(env, s, w).0.lastContact == s.lastContact
  {
    hide Batch, Handle, Shutdown;
    if LateStart(env, s, w) {
      assert StartupPoll(env, w) == Answered(LATE_START);
    }
  }

  lemma {:induction false} BlindnessKeepsContact(env: SentinelEnv, s: Watch, ws: seq<Sweep>, p: real, d: real)
    requires AllBlind(ws) && Timely(ws, p, d)
    ensures After(env, s, ws).lastContact == s.lastContact
  {
    hide Tick, Blind;
    if ws != [] {
      var k := |ws| - 1;
      BlindnessKeepsContact(env, s, ws[..k], p, d);
      BlindTick(env, After(env, s, ws[..k]), ws[k], d);
    }
  }

  lemma LastTickKills(env: SentinelEnv, s: Watch, ws: seq<Sweep>)
    requires ws != []
    requires var outcome := Tick(env, After(env, s, ws[..|ws| - 1]), ws[|ws| - 1]).1;
             outcome.Returned? && outcome.value.terminated
    ensures KillAttempted(s.ladder.trace, After(env, s, ws).ladder.trace)
  {
    var k := |ws| - 1;
    var before := After(env, s, ws[..k]);
    hide Tick, Grows, KillAttempted, Good;
    AfterKeeps(env, s, ws[..k]);
    TickGrows(env, before, ws[k]);
    GrowthAdds(s.ladder.trace, before.ladder.trace, After(env, s, ws).ladder.trace);
  }

  /** Blind sweeps without a kill attempt end before the timeout has passed. */
  lemma BlindUntilKilled(env: SentinelEnv, s: Watch, ws: seq<Sweep>, p: real, d: real)
    requires AllBlind(ws) && Timely(ws, p, d) && ws != []
    requires !KillAttempted(s.ladder.trace, After(env, s, ws).ladder.trace)
    ensures ws[|ws| - 1].lastLook - s.lastContact < env.cfg.failsafe.deadMansTimeout
  {
    var k := |ws| - 1;
    var before := After(env, s, ws[..k]);
    hide Tick, After, KillAttempted, Blind;
    BlindnessKeepsContact(env, s, ws[..k], p, d);
    BlindTick(env, before, ws[k], d);
    if Tick(env, before, ws[k]).1.value.terminated {
      LastTickKills(env, s, ws);
    }
  }

  /** The first point of a run by which a kill had been attempted. */
  lemma {:induction false} FirstKill(env: SentinelEnv, s: Watch, ws: seq<Sweep>, m: nat) returns (n: nat)
    requires m <= |ws| && KillAttempted(s.ladder.trace, After(env, s, ws[..m]).ladder.trace)
    ensures 0 < n <= m && KillAttempted(s.ladder.trace, After(env, s, ws[..n]).ladder.trace)
    ensures !KillAttempted(s.ladder.trace, After(env, s, ws[..n - 1]).ladder.trace)
  {
    hide Tick, KillAttempted, After;
    if m == 0 {
      NothingYet(s.ladder.trace);
      assert After(env, s, ws[..0]) == s by { AfterNothing(env, s, ws); }
    }
    if KillAttempted(s.ladder.trace, After(env, s, ws[..m - 1]).ladder.trace) {
      n := FirstKill(env, s, ws, m - 1);
    } else {
      n := m;
    }
  }

  lemma AfterNothing(env: SentinelEnv, s: Watch, ws: seq<Sweep>)
    ensures After(env, s, ws[..0]) == s
  {
  }

  lemma NothingYet(t: seq<Event>)
    ensures !KillAttempted(t, t)
  {
  }

  /** Before any kill is attempted a watch only stops for the other reasons. */
  lemma WatchReaches(env: SentinelEnv, s: Watch, ws: seq<Sweep>, n: nat)
    requires Good(env.ladder, s.ladder, []) && !s.ladder.terminated
    requires 0 < n <= |ws|
    requires !KillAttempted(s.ladder.trace, After(env, s, ws[..n - 1]).ladder.trace)
    ensures var m := KeepWatch(env, s, ws, None, 0).taken;
            && m <= |ws|
            && (m >= n
                || (0 < m && (RunIsOver(ws[m - 1]) || TurnsOutStarted(env, After(env, s, ws[..m - 1]), ws[m - 1]))))
  {
    hide KeepWatch, After, Good, KillAttempted, StartupPoll, LateStart;
    WatchEndsForAReason(env, s, ws, None);
    var v := KeepWatch(env, s, ws, None, 0);
    if v.taken < n && v.stop == PodDown {
      assert ws[..n - 1][..v.taken] == ws[..v.taken];
      KillStaysAttempted(env, s, ws[..n - 1], v.taken);
    }
  }

  /** Startup looked late at first, and had a run to show at the re-poll. */
  predicate TurnsOutStarted(env: SentinelEnv, before: Watch, w: Sweep) {
    LateStart(env, before, w) && StartupPoll(env, w) == NoAnswer
  }

  lemma BlindGoesOn(env: SentinelEnv, before: Watch, w: Sweep, d: real)
    requires Blind(w) && InOrder(w, d)
    ensures !RunIsOver(w) && !TurnsOutStarted(env, before, w)
  {
  }

  /** When blind sweeps span the timeout, some sweep attempts the first kill, and
      it cannot be one that comes much later. */
  lemma BlindRunKills(env: SentinelEnv, s: Watch, ws: seq<Sweep>, p: real, d: real) returns (n: nat)
    requires AllBlind(ws) && Timely(ws, p, d) && ws != []
    requires ws[0].begin <= s.lastContact + p + d && env.cfg.failsafe.deadMansTimeout >= 0.0
    requires ws[|ws| - 1].begin - s.lastContact >= env.cfg.failsafe.deadMansTimeout
    ensures 0 < n <= |ws|
    ensures KillAttempted(s.ladder.trace, After(env, s, ws[..n]).ladder.trace)
    ensures !KillAttempted(s.ladder.trace, After(env, s, ws[..n - 1]).ladder.trace)
    ensures ws[n - 1].end <= s.lastContact + env.cfg.failsafe.deadMansTimeout + p + 2.0 * d
  {
    hide Tick, After, KillAttempted, Blind;
    assert ws[..|ws|] == ws;
    if !KillAttempted(s.ladder.trace, After(env, s, ws).ladder.trace) {
      BlindUntilKilled(env, s, ws, p, d);
    }
    n := FirstKill(env, s, ws, |ws|);
    assert InOrder(ws[n - 1], d);
    if n > 1 {
      BlindUntilKilled(env, s, ws[..n - 1], p, d);
      assert InOrder(ws[n - 2], d) && ws[n - 2 + 1].begin == ws[n - 2].end + p;
    }
  }

  /** Bounded latency. Take a watch whose last contact lies at most one sweep and
      one sleep before its first sweep here, and let nothing answer from then on.
      Once the sweeps span the timeout, a kill has been attempted, by a sweep that
      the watch does reach and that ends within timeout + P + 2D of that contact. */
  lemma DeadManLatency(env: SentinelEnv, s: Watch, ws: seq<Sweep>, p: real, d: real) returns (n: nat)
    requires Good(env.ladder, s.ladder, []) && !s.ladder.terminated
    requires AllBlind(ws) && Timely(ws, p, d) && p >= 0.0 && ws != []
    requires s.lastContact <= ws[0].begin <= s.lastContact + p + d
    requires env.cfg.failsafe.deadMansTimeout >= 0.0
    requires (|ws| - 1) as real * p >= env.cfg.failsafe.deadMansTimeout
    ensures 0 < n <= KeepWatch(env, s, ws, None, 0).taken <= |ws|
    ensures KillAttempted(s.ladder.trace, After(env, s, ws[..n]).ladder.trace)
    ensures ws[n - 1].end <= s.lastContact + env.cfg.failsafe.deadMansTimeout + p + 2.0 * d
  {
    SweepsTakeTime(ws, p, d, |ws| - 1);
    hide Tick, After, KeepWatch, Good, KillAttempted, Blind, InOrder;
    n := BlindRunKills(env, s, ws, p, d);
    WatchReaches(env, s, ws, n);
    var m := KeepWatch(env, s, ws, None, 0).taken;
    if 0 < m {
      BlindGoesOn(env, After(env, s, ws[..m - 1]), ws[m - 1], d);
    }
  }
}
