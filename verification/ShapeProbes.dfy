/** The probes that decide on slopes. An unreadable window is `None`. */
module ShapeProbes {
  import opened Verdicts
  import opened Trend

  type Window = Option<seq<real>>

  /** `ReplDegeneracyProbe`: the pre-registered kill criterion. */
  function ReplDegeneracyStatus(turns: Window, nontrivial: Window, reward: Window): Status {
    if turns.None? || nontrivial.None? || reward.None? then Unknown
    else if |turns.value| < 10 || |reward.value| < 10 then Unknown
    else
      var nontrivialSlope := if |nontrivial.value| >= 10 then Slope(nontrivial.value) else 0.0;
      if Slope(reward.value) > 0.0 && Slope(turns.value) < 0.0 && nontrivialSlope <= 0.0 then Fail else Ok
  }

  function RewardHackingStatus(reward: Window, kl: Window, evals: Window): Status {
    if reward.None? || kl.None? || evals.None? then Unknown
    else if |reward.value| < 10 || |kl.value| < 10 then Unknown
    else if && Slope(reward.value) > 0.0 && Slope(kl.value) > 0.0
            && |evals.value| >= 3 && Slope(evals.value) <= 0.0 then Warn
    else Ok
  }

  /** The last ten samples never rise. */
  predicate LastTenFall(values: seq<real>)
    requires |values| >= 10
  {
    forall i :: |values| - 10 <= i < |values| - 1 ==> values[i + 1] <= values[i]
  }

  function EntropyStatus(floor: real, window: Window): Status {
    if window.None? || window.value == [] then Unknown
    else
      var values := window.value;
      if values[|values| - 1] < floor then Fail
      else if |values| >= 10 && Slope(values) < 0.0 && LastTenFall(values) then Warn
      else Ok
  }

  // --- exactly when, in terms of the lines that fit best ------------------------------------

  /** No line misses the samples less, in squared residuals, than a + b*i. */
  ghost predicate FitsBest(vs: seq<real>, a: real, b: real) {
    forall c, d :: Residuals(vs, a, b, |vs|) <= Residuals(vs, c, d, |vs|)
  }

  /** The line of best fit goes up. */
  ghost predicate Rises(vs: seq<real>) {
    exists a, b :: FitsBest(vs, a, b) && b > 0.0
  }

  ghost predicate Falls(vs: seq<real>) {
    exists a, b :: FitsBest(vs, a, b) && b < 0.0
  }

  lemma BestFitIsSlope(vs: seq<real>)
    requires |vs| >= 2
    ensures Rises(vs) <==> Slope(vs) > 0.0
    ensures Falls(vs) <==> Slope(vs) < 0.0
  {
    var s := Slope(vs);
    hide Slope, Residuals, Centred;
    var best := Centred(vs, s);
    forall c, d ensures Residuals(vs, best, s, |vs|) <= Residuals(vs, c, d, |vs|) {
      SlopeIsLeastSquares(vs, c, d);
    }
    assert FitsBest(vs, best, s);
    forall a, b | FitsBest(vs, a, b) ensures b == s {
      SlopeIsLeastSquares(vs, a, b);
      assert Residuals(vs, a, b, |vs|) <= Residuals(vs, best, s, |vs|);
    }
  }

  /** The kill criterion speaks exactly when all three histories can be read and two of
      them are long enough; and it fails exactly when the reward's best line rises, that
      of the turns falls and that of the non-trivial work, if it has ten samples, does
      not rise. */
  lemma DegeneracyExactly(turns: Window, nontrivial: Window, reward: Window)
    ensures ReplDegeneracyStatus(turns, nontrivial, reward) == Unknown <==>
              || turns.None? || nontrivial.None? || reward.None?
              || |turns.value| < 10 || |reward.value| < 10
    ensures ReplDegeneracyStatus(turns, nontrivial, reward) == Fail <==>
              && turns.Some? && nontrivial.Some? && reward.Some?
              && |turns.value| >= 10 && |reward.value| >= 10
              && Rises(reward.value) && Falls(turns.value)
              && (|nontrivial.value| >= 10 ==> !Rises(nontrivial.value))
    ensures ReplDegeneracyStatus(turns, nontrivial, reward) != Warn
  {
    hide Slope, Rises, Falls;
    if turns.Some? && |turns.value| >= 10 {
      BestFitIsSlope(turns.value);
    }
    if reward.Some? && |reward.value| >= 10 {
      BestFitIsSlope(reward.value);
    }
    if nontrivial.Some? && |nontrivial.value| >= 10 {
      BestFitIsSlope(nontrivial.value);
    }
  }

  /** Reward hacking is warned about exactly when reward and KL rise, on ten samples or
      more each, over at least three evals that do not. Otherwise the probe is silent. */
  lemma HackingExactly(reward: Window, kl: Window, evals: Window)
    ensures RewardHackingStatus(reward, kl, evals) == Unknown <==>
              || reward.None? || kl.None? || evals.None?
              || |reward.value| < 10 || |kl.value| < 10
    ensures RewardHackingStatus(reward, kl, evals) == Warn <==>
              && reward.Some? && kl.Some? && evals.Some?
              && |reward.value| >= 10 && |kl.value| >= 10 && |evals.value| >= 3
              && Rises(reward.value) && Rises(kl.value) && !Rises(evals.value)
    ensures RewardHackingStatus(reward, kl, evals) != Fail
  {
    hide Slope, Rises, Falls;
    if reward.Some? && |reward.value| >= 10 {
      BestFitIsSlope(reward.value);
    }
    if kl.Some? && |kl.value| >= 10 {
      BestFitIsSlope(kl.value);
    }
    if evals.Some? && |evals.value| >= 3 {
      BestFitIsSlope(evals.value);
    }
  }

  /** Entropy fails exactly below its floor, whatever it does; and above it, it is warned
      about exactly when its best line falls and none of its last nine steps rises. */
  lemma EntropyExactly(floor: real, window: Window)
    ensures EntropyStatus(floor, window) == Unknown <==> window.None? || |window.value| == 0
    ensures EntropyStatus(floor, window) == Fail <==>
              window.Some? && |window.value| > 0 && window.value[|window.value| - 1] < floor
    ensures EntropyStatus(floor, window) == Warn <==>
              && window.Some? && |window.value| >= 10 && window.value[|window.value| - 1] >= floor
              && Falls(window.value)
              && forall i :: |window.value| - 10 < i < |window.value| ==> window.value[i] <= window.value[i - 1]
  {
    hide Slope, Rises, Falls;
    if window.Some? && |window.value| >= 10 {
      BestFitIsSlope(window.value);
      var vs := window.value;
      if LastTenFall(vs) {
        forall i | |vs| - 10 < i < |vs| ensures vs[i] <= vs[i - 1] {
          assert vs[i - 1 + 1] <= vs[i - 1];
        }
      }
    }
  }

  // --- what they are for ------------------------------------------------------------------

  /** Ever more reward for ever fewer turns, without more non-trivial operations,
      is always caught once the histories are long enough. */
  lemma DegeneracyIsCaught(turns: seq<real>, nontrivial: seq<real>, reward: seq<real>)
    requires |turns| >= 10 && |reward| >= 10
    requires NonDecreasing(reward) && !Constant(reward)
    requires NonIncreasing(turns) && !Constant(turns)
    requires NonIncreasing(nontrivial)
    ensures ReplDegeneracyStatus(Some(turns), Some(nontrivial), Some(reward)) == Fail
  {
    hide Slope, NonDecreasing, NonIncreasing, Constant;
    RisingSlope(reward);
    FallingSlope(turns);
    FallingSlope(nontrivial);
  }

  /** Conversely a reward that never rises, turns that never fall, or a growing
      share of non-trivial operations is never called degenerate. */
  lemma HealthIsNotDegeneracy(turns: seq<real>, nontrivial: seq<real>, reward: seq<real>)
    requires NonIncreasing(reward) || NonDecreasing(turns)
             || (|nontrivial| >= 10 && NonDecreasing(nontrivial) && !Constant(nontrivial))
    ensures ReplDegeneracyStatus(Some(turns), Some(nontrivial), Some(reward)) != Fail
  {
    hide Slope, NonDecreasing, NonIncreasing, Constant;
    if NonIncreasing(reward) {
      FallingSlope(reward);
    } else if NonDecreasing(turns) {
      RisingSlope(turns);
    } else {
      RisingSlope(nontrivial);
    }
  }

  /** The criterion does not depend on the units of any of its three metrics. */
  lemma DegeneracyIgnoresUnits(
    turns: seq<real>, nontrivial: seq<real>, reward: seq<real>, a: real, b: real, c: real, p: real, q: real, r: real)
    requires a > 0.0 && b > 0.0 && c > 0.0
    ensures ReplDegeneracyStatus(
              Some(Rescaled(turns, a, p)), Some(Rescaled(nontrivial, b, q)), Some(Rescaled(reward, c, r)))
            == ReplDegeneracyStatus(Some(turns), Some(nontrivial), Some(reward))
  {
    SignIgnoresUnits(turns, a, p);
    SignIgnoresUnits(nontrivial, b, q);
    SignIgnoresUnits(reward, c, r);
    hide Slope, Rescaled;
  }

  lemma SignIgnoresUnits(vs: seq<real>, scale: real, shift: real)
    requires scale > 0.0
    ensures |Rescaled(vs, scale, shift)| == |vs|
    ensures Slope(Rescaled(vs, scale, shift)) > 0.0 <==> Slope(vs) > 0.0
    ensures Slope(Rescaled(vs, scale, shift)) < 0.0 <==> Slope(vs) < 0.0
  {
    SlopeRescales(vs, scale, shift);
    SignOfProduct(scale, Slope(vs));
    hide Slope, Rescaled;
  }

  /** A run and the same run played backwards are never both called degenerate. */
  lemma DegeneracyHasADirection(turns: seq<real>, nontrivial: seq<real>, reward: seq<real>)
    ensures ReplDegeneracyStatus(Some(turns), Some(nontrivial), Some(reward)) == Fail ==>
              ReplDegeneracyStatus(Some(Reversed(turns)), Some(Reversed(nontrivial)), Some(Reversed(reward))) != Fail
  {
    hide Slope, Reversed;
    SlopeIsOdd(reward);
  }

  /** Reward and KL that keep rising over an eval that never does. */
  lemma HackingIsCaught(reward: seq<real>, kl: seq<real>, evals: seq<real>)
    requires |reward| >= 10 && |kl| >= 10 && |evals| >= 3
    requires NonDecreasing(reward) && !Constant(reward)
    requires NonDecreasing(kl) && !Constant(kl)
    requires NonIncreasing(evals)
    ensures RewardHackingStatus(Some(reward), Some(kl), Some(evals)) == Warn
  {
    hide Slope, NonDecreasing, NonIncreasing, Constant;
    RisingSlope(reward);
    RisingSlope(kl);
    FallingSlope(evals);
  }

  /** An entropy that declines over its whole window never passes unremarked. */
  lemma EntropyDeclineIsCaught(floor: real, values: seq<real>)
    requires |values| >= 10 && NonIncreasing(values) && !Constant(values)
    ensures EntropyStatus(floor, Some(values)) == if values[|values| - 1] < floor then Fail else Warn
  {
    assert LastTenFall(values);
    hide Slope, NonIncreasing, Constant;
    FallingSlope(values);
  }

  // --- ... and what one of them misses ---------------------------------------------------------

  lemma {:induction false} ConcatSums(a: seq<real>, b: seq<real>)
    ensures Sum(a + b) == Sum(a) + Sum(b)
    ensures Moment(a + b) == Moment(a) + Moment(b) + Times(|a| as real, Sum(b))
  {
    if b == [] {
      assert a + b == a;
      assert Times(|a| as real, 0.0) == 0.0;
    } else {
      var k := |b| - 1;
      assert (a + b)[..|a| + k] == a + b[..k];
      hide *;
      ConcatSums(a, b[..k]);
      SumsUnfold(b);
      SumsUnfold(a + b);
      SplitProduct(|a| as real, k as real, Sum(b[..k]), b[k]);
    }
  }

  lemma SplitProduct(n: real, x: real, sum: real, v: real)
    ensures Times(n + x, v) + Times(n, sum) == Times(x, v) + Times(n, sum + v)
  {
  }

  lemma LineSums(intercept: real, slope: real)
    ensures Sum(Line(intercept, slope, 10)) == 10.0 * intercept + 45.0 * slope
    ensures Moment(Line(intercept, slope, 10)) == 45.0 * intercept + 285.0 * slope
  {
    var unit := Line(0.0, 1.0, 10);
    IndexSums(10);
    RescaledSums(unit, slope, intercept);
    assert forall i :: 0 <= i < 10 ==> unit[i] == i as real;
    assert Rescaled(unit, slope, intercept) == Line(intercept, slope, 10);
    hide Sum, Moment, Line, Rescaled;
    assert IndexSum(10.0) == 45.0 && IndexSquares(10.0) == 285.0;
    TenForms(slope, intercept);
  }

  lemma TenForms(scale: real, shift: real)
    ensures SumForm(45.0, 10.0, scale, shift) == 10.0 * shift + 45.0 * scale
    ensures MomentForm(285.0, 10.0, scale, shift) == 45.0 * shift + 285.0 * scale
  {
  }

  /** A strict decline over the last ten steps is missed when an older jump keeps
      the slope of the window up: ten samples at 1, then 10, 9.9, ..., 9.1. */
  lemma DeclineAfterAJumpIsMissed() returns (values: seq<real>)
    ensures |values| == 20 && LastTenFall(values)
    ensures forall i :: 10 <= i < 19 ==> values[i + 1] < values[i]
    ensures EntropyStatus(0.5, Some(values)) == Ok
  {
    var flat, down := Line(1.0, 0.0, 10), Line(10.0, -0.1, 10);
    values := flat + down;
    assert forall i :: 0 <= i < 10 ==> down[i] == 10.0 - 0.1 * i as real;
    assert forall i :: 10 <= i < 20 ==> values[i] == down[i - 10];
    LineSums(1.0, 0.0);
    LineSums(10.0, -0.1);
    ConcatSums(flat, down);
    assert Times(10.0, Sum(down)) == 10.0 * Sum(down);
    hide Slope, Sum, Moment, Line;
    SlopeIsSkew(values);
  }

  /** Exactly when: a ten-step decline above the floor is warned about if and only
      if the slope of the whole window is negative. */
  lemma DeclineIsWarnedIff(floor: real, values: seq<real>)
    requires |values| >= 10 && LastTenFall(values) && values[|values| - 1] >= floor
    ensures EntropyStatus(floor, Some(values)) == Warn <==> Slope(values) < 0.0
    ensures |values| == 10 ==> (Slope(values) < 0.0 <==> !Constant(values))
  {
    if |values| == 10 {
      FallsThroughout(values, 9);
      hide Slope;
      FallingSlope(values);
    }
  }

  lemma {:induction false} FallsThroughout(values: seq<real>, k: nat)
    requires |values| == 10 && LastTenFall(values) && k < 10
    ensures NonIncreasing(values[..k + 1])
    ensures k == 9 ==> NonIncreasing(values)
  {
    if k > 0 {
      FallsThroughout(values, k - 1);
      assert values[k - 1 + 1] <= values[k - 1];
      forall i, j | 0 <= i < j < k + 1 ensures values[i] >= values[j] {
        assert values[i] >= values[k - 1] by {
          assert values[..k][i] == values[i] && values[..k][k - 1] == values[k - 1];
        }
        assert j < k ==> values[..k][j] == values[j];
      }
    }
    assert k == 9 ==> values[..k + 1] == values;
  }
}
