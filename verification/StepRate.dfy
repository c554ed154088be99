/** Reading W&B history: one timestamp per step, and the median step time. */
module StepRate {
  import opened Verdicts

  /** One history row. A missing, non-numeric or NaN entry is `None`. */
  datatype Row = Row(step: Option<real>, counter: Option<real>, timestamp: Option<real>)

  /** A training step, as a dictionary key. */
  datatype StepNo = StepNo(number: int)

  /** Python's `int()` of a float: towards zero. */
  function Truncate(x: real): (n: int)
    ensures x >= 0.0 ==> n as real <= x < n as real + 1.0
    ensures x < 0.0 ==> n as real - 1.0 < x <= n as real
  {
    if x >= 0.0 then x.Floor else -((-x).Floor)
  }

  predicate Dated(row: Row) {
    row.step.Some? && row.timestamp.Some?
  }

  function StepOf(row: Row): StepNo
    requires Dated(row)
  {
    StepNo(Truncate(row.step.value))
  }

  // --- built-in sorting -----------------------------------------------------------------

  predicate IsLeast(least: StepNo, s: set<StepNo>) {
    least in s && forall j :: j in s ==> least.number <= j.number
  }

  lemma {:induction false} LeastExists(s: set<StepNo>) returns (least: StepNo)
    requires s != {}
    ensures IsLeast(least, s)
    decreases |s|
  {
    least :| least in s;
    var rest := s - {least};
    assert forall j :: j in s ==> j == least || j in rest;
    if rest != {} {
      var other := LeastExists(rest);
      least := if least.number <= other.number then least else other;
    }
  }

  function Least(s: set<StepNo>): (least: StepNo)
    requires s != {}
    ensures IsLeast(least, s)
  {
    assert exists m :: IsLeast(m, s) by { var m := LeastExists(s); }
    var least :| IsLeast(least, s);
    least
  }

  function SortedKeys(s: set<StepNo>): seq<StepNo>
    decreases |s|
  {
    if s == {} then [] else [Least(s)] + SortedKeys(s - {Least(s)})
  }

  predicate Climbing(keys: seq<StepNo>) {
    forall i, j :: 0 <= i < j < |keys| ==> keys[i].number < keys[j].number
  }

  lemma {:induction false} KeysAreAll(s: set<StepNo>)
    ensures |SortedKeys(s)| == |s|
    ensures forall k :: k in SortedKeys(s) <==> k in s
    decreases |s|
  {
    if s != {} {
      KeysAreAll(s - {Least(s)});
    }
  }

  lemma {:induction false} KeysClimb(s: set<StepNo>)
    ensures Climbing(SortedKeys(s))
    decreases |s|
  {
    if s != {} {
      var rest := SortedKeys(s - {Least(s)});
      KeysClimb(s - {Least(s)});
      KeysAreAll(s - {Least(s)});
      assert forall i :: 0 <= i < |rest| ==> rest[i] in rest;
      assert forall i :: 0 <= i < |rest| ==> rest[i] in s && rest[i] != Least(s);
    }
  }

  lemma KeysAreSorted(s: set<StepNo>)
    ensures |SortedKeys(s)| == |s| && Climbing(SortedKeys(s))
    ensures forall k :: k in SortedKeys(s) <==> k in s
    ensures forall i :: 0 <= i < |s| ==> SortedKeys(s)[i] in s
  {
    hide SortedKeys, Climbing;
    KeysAreAll(s);
    KeysClimb(s);
    assert forall i :: 0 <= i < |s| ==> SortedKeys(s)[i] in SortedKeys(s);
  }

  function Insert(x: real, s: seq<real>): seq<real> {
    if s == [] || x <= s[0] then [x] + s else [s[0]] + Insert(x, s[1..])
  }

  function Sorted(s: seq<real>): seq<real> {
    if s == [] then [] else Insert(s[0], Sorted(s[1..]))
  }

  ghost predicate Ascending(s: seq<real>) {
    forall i, j :: 0 <= i < j < |s| ==> s[i] <= s[j]
  }

  lemma {:induction false} InsertKeepsAll(x: real, s: seq<real>)
    ensures multiset(Insert(x, s)) == multiset(s) + multiset{x} && |Insert(x, s)| == |s| + 1
    ensures forall y :: y in Insert(x, s) ==> y == x || y in s
  {
    if s != [] && x > s[0] {
      InsertKeepsAll(x, s[1..]);
      assert s == [s[0]] + s[1..];
    }
  }

  lemma {:induction false} InsertKeepsOrder(x: real, s: seq<real>)
    requires Ascending(s)
    ensures Ascending(Insert(x, s))
  {
    if s != [] && x > s[0] {
      InsertKeepsOrder(x, s[1..]);
      InsertKeepsAll(x, s[1..]);
      var rest := Insert(x, s[1..]);
      assert forall j :: 0 <= j < |rest| ==> rest[j] in rest;
    }
  }

  lemma {:induction false} SortedIsAscending(s: seq<real>)
    ensures Ascending(Sorted(s)) && multiset(Sorted(s)) == multiset(s) && |Sorted(s)| == |s|
  {
    if s != [] {
      SortedIsAscending(s[1..]);
      InsertKeepsOrder(s[0], Sorted(s[1..]));
      InsertKeepsAll(s[0], Sorted(s[1..]));
      assert s == [s[0]] + s[1..];
    }
  }

  // --- what the rate is -------------------------------------------------------------------

  /** The earliest timestamp of each step, row by row. */
  function Earliest(rows: seq<Row>): map<StepNo, real> {
    if rows == [] then map[]
    else
      var row, byStep := rows[|rows| - 1], Earliest(rows[..|rows| - 1]);
      if !Dated(row) then byStep
      else if StepOf(row) !in byStep || row.timestamp.value < byStep[StepOf(row)]
      then byStep[StepOf(row) := row.timestamp.value]
      else byStep
  }

  /** Seconds per step between consecutive steps seen, where time moved on. */
  function DeltasUpTo(byStep: map<StepNo, real>, keys: seq<StepNo>, n: nat): seq<real>
    requires n <= |keys| && forall k :: k in keys ==> k in byStep
  {
    if n < 2 then []
    else
      var earlier := DeltasUpTo(byStep, keys, n - 1);
      var steps, seconds := keys[n - 1].number - keys[n - 2].number, byStep[keys[n - 1]] - byStep[keys[n - 2]];
      if steps > 0 && seconds > 0.0 then earlier + [seconds / steps as real] else earlier
  }

  function Deltas(byStep: map<StepNo, real>): seq<real> {
    KeysAreSorted(byStep.Keys);
    DeltasUpTo(byStep, SortedKeys(byStep.Keys), |byStep.Keys|)
  }

  function Median(sorted: seq<real>): real
    requires sorted != []
  {
    var mid := |sorted| / 2;
    if |sorted| % 2 == 1 then sorted[mid] else (sorted[mid - 1] + sorted[mid]) / 2.0
  }

  function Typical(deltas: seq<real>): Option<real> {
    if Sorted(deltas) == [] then None else Some(Median(Sorted(deltas)))
  }

  function Rate(byStep: map<StepNo, real>): Option<real> {
    if |byStep.Keys| < 2 then None else Typical(Deltas(byStep))
  }

  method CollapseSteps(rows: seq<Row>) returns (byStep: map<StepNo, real>)
    ensures byStep == Earliest(rows)
  {
    byStep := map[];
    for i := 0 to |rows|
      invariant byStep == Earliest(rows[..i])
    {
      assert rows[..i + 1][..i] == rows[..i];
      var row := rows[i];
      if row.step.Some? && row.timestamp.Some? {
        var key := StepNo(Truncate(row.step.value));
        if key !in byStep || row.timestamp.value < byStep[key] {
          byStep := byStep[key := row.timestamp.value];
        }
      }
    }
    assert rows[..|rows|] == rows;
  }

  method CollectDeltas(byStep: map<StepNo, real>, ordered: seq<StepNo>) returns (deltas: seq<real>)
    requires ordered != [] && forall k :: k in ordered ==> k in byStep
    ensures deltas == DeltasUpTo(byStep, ordered, |ordered|)
  {
    deltas := [];
    for i := 1 to |ordered|
      invariant deltas == DeltasUpTo(byStep, ordered, i)
    {
      var steps := ordered[i].number - ordered[i - 1].number;
      var seconds := byStep[ordered[i]] - byStep[ordered[i - 1]];
      if steps > 0 && seconds > 0.0 {
        deltas := deltas + [seconds / steps as real];
      }
    }
  }

  method MedianOf(deltas: seq<real>) returns (median: Option<real>)
    ensures median == Typical(deltas)
    ensures median.None? <==> deltas == []
    ensures |Sorted(deltas)| == |deltas|
    ensures median.Some? ==>
              forall k: nat :: 2 * k <= |deltas| - 1 <= 2 * k + 1 ==>
                2.0 * median.value == Sorted(deltas)[k] + Sorted(deltas)[|deltas| - 1 - k]
  {
    SortedIsAscending(deltas);
    if deltas == [] {
      return None;
    }
    var sorted := Sorted(deltas);
    hide Sorted, Ascending;
    var mid := |sorted| / 2;
    if |sorted| % 2 == 1 {
      return Some(sorted[mid]);
    }
    return Some((sorted[mid - 1] + sorted[mid]) / 2.0);
  }

  /** `step_rate_s`, once the history has been read. */
  method SecondsPerStep(rows: seq<Row>) returns (rate: Option<real>)
    ensures rate == Rate(Earliest(rows))
  {
    var byStep := CollapseSteps(rows);
    if |byStep.Keys| < 2 {
      return None;
    }
    KeysAreSorted(byStep.Keys);
    hide SortedKeys, Typical, Earliest, DeltasUpTo;
    var deltas := CollectDeltas(byStep, SortedKeys(byStep.Keys));
    rate := MedianOf(deltas);
  }

  // --- only the earliest timestamps matter ---------------------------------------------------

  ghost predicate IsEarliest(rows: seq<Row>, byStep: map<StepNo, real>) {
    && (forall r :: r in rows && Dated(r) ==> StepOf(r) in byStep && byStep[StepOf(r)] <= r.timestamp.value)
    && (forall k :: k in byStep ==>
          exists r :: r in rows && Dated(r) && StepOf(r) == k && r.timestamp.value == byStep[k])
  }

  lemma {:induction false} EarliestIsEarliest(rows: seq<Row>)
    ensures IsEarliest(rows, Earliest(rows))
  {
    if rows != [] {
      var k := |rows| - 1;
      var row, was, now := rows[k], Earliest(rows[..k]), Earliest(rows);
      EarliestIsEarliest(rows[..k]);
      assert rows == rows[..k] + [row];
      forall s | s in now ensures exists r :: r in rows && Dated(r) && StepOf(r) == s && r.timestamp.value == now[s] {
        if s in was && was[s] == now[s] {
          var r :| r in rows[..k] && Dated(r) && StepOf(r) == s && r.timestamp.value == was[s];
          assert r in rows;
        } else {
          assert row in rows && StepOf(row) == s;
        }
      }
    }
  }

  lemma EarliestIsUnique(rows: seq<Row>, more: seq<Row>, a: map<StepNo, real>, b: map<StepNo, real>)
    requires IsEarliest(rows, a) && IsEarliest(more, b)
    requires forall r :: r in rows ==> r in more
    ensures forall k :: k in a ==> k in b && b[k] <= a[k]
  {
    forall k | k in a ensures k in b && b[k] <= a[k] {
      var r :| r in rows && Dated(r) && StepOf(r) == k && r.timestamp.value == a[k];
    }
  }

  lemma SameMap(a: map<StepNo, real>, b: map<StepNo, real>)
    requires forall k :: k in a ==> k in b && b[k] <= a[k]
    requires forall k :: k in b ==> k in a && a[k] <= b[k]
    ensures a == b
  {
    assert a.Keys == b.Keys;
  }

  /** Order and repetition of the rows do not matter. */
  lemma RateIgnoresOrder(rows: seq<Row>, more: seq<Row>)
    requires forall r :: r in rows <==> r in more
    ensures Rate(Earliest(rows)) == Rate(Earliest(more))
  {
    EarliestIsEarliest(rows);
    EarliestIsEarliest(more);
    EarliestIsUnique(rows, more, Earliest(rows), Earliest(more));
    EarliestIsUnique(more, rows, Earliest(more), Earliest(rows));
    SameMap(Earliest(rows), Earliest(more));
  }

  /** Nor do later rows for steps already seen, wherever other writers put them. */
  lemma RateIgnoresLaterRows(rows: seq<Row>, late: seq<Row>)
    requires forall r :: r in late && Dated(r) ==>
               exists q :: q in rows && Dated(q) && StepOf(q) == StepOf(r) && q.timestamp.value <= r.timestamp.value
    ensures Rate(Earliest(rows + late)) == Rate(Earliest(rows))
  {
    EarliestIsEarliest(rows);
    EarliestIsEarliest(rows + late);
    var a, b := Earliest(rows), Earliest(rows + late);
    EarliestIsUnique(rows, rows + late, a, b);
    forall k | k in b ensures k in a && a[k] <= b[k] {
      var r :| r in rows + late && Dated(r) && StepOf(r) == k && r.timestamp.value == b[k];
      if r !in rows {
        var q :| q in rows && Dated(q) && StepOf(q) == StepOf(r) && q.timestamp.value <= r.timestamp.value;
      }
    }
    SameMap(a, b);
  }

  function Delayed(rows: seq<Row>, delay: real): seq<Row> {
    seq(|rows|, i requires 0 <= i < |rows| =>
      if rows[i].timestamp.None? then rows[i] else rows[i].(timestamp := Some(rows[i].timestamp.value + delay)))
  }

  lemma {:induction false} EarliestDelayed(rows: seq<Row>, delay: real)
    ensures Earliest(Delayed(rows, delay)).Keys == Earliest(rows).Keys
    ensures forall k :: k in Earliest(rows) ==> Earliest(Delayed(rows, delay))[k] == Earliest(rows)[k] + delay
  {
    if rows != [] {
      var k := |rows| - 1;
      EarliestDelayed(rows[..k], delay);
      assert Delayed(rows, delay)[..k] == Delayed(rows[..k], delay);
    }
  }

  lemma {:induction false} DeltasDelayed(
    a: map<StepNo, real>, b: map<StepNo, real>, keys: seq<StepNo>, n: nat, delay: real)
    requires n <= |keys| && a.Keys == b.Keys && forall k :: k in keys ==> k in a
    requires forall k :: k in a ==> b[k] == a[k] + delay
    ensures DeltasUpTo(b, keys, n) == DeltasUpTo(a, keys, n)
  {
    if n >= 2 {
      DeltasDelayed(a, b, keys, n - 1, delay);
    }
  }

  /** Nor does when the run started: provisioning and load time cancel out. */
  lemma RateIgnoresStart(rows: seq<Row>, delay: real)
    ensures Rate(Earliest(Delayed(rows, delay))) == Rate(Earliest(rows))
  {
    var a, b := Earliest(rows), Earliest(Delayed(rows, delay));
    EarliestDelayed(rows, delay);
    KeysAreSorted(a.Keys);
    hide SortedKeys, Earliest, Sorted;
    DeltasDelayed(a, b, SortedKeys(a.Keys), |a.Keys|, delay);
  }

  // --- what the median is worth ------------------------------------------------------------------

  lemma {:induction false} DeltasArePositive(byStep: map<StepNo, real>, keys: seq<StepNo>, n: nat)
    requires n <= |keys| && forall k :: k in keys ==> k in byStep
    ensures forall i :: 0 <= i < |DeltasUpTo(byStep, keys, n)| ==> DeltasUpTo(byStep, keys, n)[i] > 0.0
  {
    if n >= 2 {
      DeltasArePositive(byStep, keys, n - 1);
    }
  }

  /** The step times that lie outside [a, b]. */
  function Outside(s: seq<real>, a: real, b: real): nat {
    if s == [] then 0 else Outside(s[1..], a, b) + if a <= s[0] <= b then 0 else 1
  }

  lemma {:induction false} OutsideInsert(x: real, s: seq<real>, a: real, b: real)
    ensures Outside(Insert(x, s), a, b) == Outside([x] + s, a, b)
  {
    if s == [] || x <= s[0] {
    } else {
      OutsideInsert(x, s[1..], a, b);
      var rest := Insert(x, s[1..]);
      assert ([s[0]] + rest)[1..] == rest && ([x] + s)[1..] == s && ([x] + s[1..])[1..] == s[1..];
    }
  }

  lemma {:induction false} OutsideSorted(s: seq<real>, a: real, b: real)
    ensures Outside(Sorted(s), a, b) == Outside(s, a, b)
  {
    if s != [] {
      OutsideSorted(s[1..], a, b);
      OutsideInsert(s[0], Sorted(s[1..]), a, b);
      assert ([s[0]] + Sorted(s[1..]))[1..] == Sorted(s[1..]);
    }
  }

  lemma {:induction false} RunOutside(s: seq<real>, a: real, b: real, lo: nat, hi: nat)
    requires lo <= hi <= |s|
    requires forall i :: lo <= i < hi ==> s[i] < a || s[i] > b
    ensures Outside(s, a, b) >= hi - lo
  {
    if s != [] && hi > 0 {
      RunOutside(s[1..], a, b, if lo == 0 then 0 else lo - 1, hi - 1);
    }
  }

  lemma MiddleIsInside(s: seq<real>, a: real, b: real, k: nat)
    requires Ascending(s) && k < |s|
    requires 2 * Outside(s, a, b) < |s| && |s| - 1 <= 2 * k + 1 && 2 * k <= |s|
    requires 2 * k == |s| || 2 * k + 1 == |s| || 2 * k + 2 == |s|
    ensures a <= s[k] <= b
  {
    if s[k] < a {
      RunOutside(s, a, b, 0, k + 1);
    }
    if s[k] > b {
      RunOutside(s, a, b, k, |s|);
    }
  }

  lemma MedianIsInside(deltas: seq<real>, a: real, b: real)
    requires deltas != [] && 2 * Outside(deltas, a, b) < |deltas|
    ensures Sorted(deltas) != [] && a <= Median(Sorted(deltas)) <= b
  {
    var s := Sorted(deltas);
    SortedIsAscending(deltas);
    OutsideSorted(deltas, a, b);
    var mid := |s| / 2;
    MiddleIsInside(s, a, b, mid);
    if |s| % 2 == 0 {
      MiddleIsInside(s, a, b, mid - 1);
    }
  }

  /** The rate survives outliers: if fewer than half of the step times lie outside
      [a, b], the rate lies inside. */
  lemma RateSurvivesOutliers(rows: seq<Row>, a: real, b: real)
    requires var deltas := Deltas(Earliest(rows));
             deltas != [] && 2 * Outside(deltas, a, b) < |deltas|
    ensures var rate := Rate(Earliest(rows));
            rate.Some? && a <= rate.value <= b
  {
    MedianIsInside(Deltas(Earliest(rows)), a, b);
  }

  /** A rate is always positive. */
  lemma RateIsPositive(byStep: map<StepNo, real>)
    ensures Rate(byStep).Some? ==> Rate(byStep).value > 0.0
  {
    var deltas := Deltas(byStep);
    KeysAreSorted(byStep.Keys);
    DeltasArePositive(byStep, SortedKeys(byStep.Keys), |byStep.Keys|);
    SortedIsAscending(deltas);
    hide SortedKeys, DeltasUpTo, Sorted;
    var sorted := Sorted(deltas);
    forall i | 0 <= i < |sorted| ensures sorted[i] > 0.0 {
      assert sorted[i] in multiset(sorted);
      assert sorted[i] in deltas;
    }
  }

  ghost predicate TimeMovedOn(byStep: map<StepNo, real>, keys: seq<StepNo>, i: int) {
    && 0 < i < |keys| && keys[i - 1] in byStep && keys[i] in byStep
    && byStep[keys[i]] > byStep[keys[i - 1]]
  }

  /** There is one exactly when time moved on between two consecutive steps seen. */
  lemma RateExistsIff(byStep: map<StepNo, real>)
    ensures Rate(byStep).Some? <==> exists i :: TimeMovedOn(byStep, SortedKeys(byStep.Keys), i)
  {
    var keys, deltas := SortedKeys(byStep.Keys), Deltas(byStep);
    KeysAreSorted(byStep.Keys);
    SortedIsAscending(deltas);
    SomeDeltaIff(byStep, keys, |keys|);
    assert Typical(deltas).Some? <==> deltas != [];
    if |keys| < 2 {
      FewKeysNoDeltas(byStep, keys);
    }
    hide SortedKeys, DeltasUpTo, Typical, TimeMovedOn, Climbing;
    assert (exists i :: i < |keys| && TimeMovedOn(byStep, keys, i)) <==> exists i :: TimeMovedOn(byStep, keys, i)
      by { OnlyWithin(byStep, keys); }
  }

  lemma FewKeysNoDeltas(byStep: map<StepNo, real>, keys: seq<StepNo>)
    requires |keys| < 2 && forall k :: k in keys ==> k in byStep
    ensures DeltasUpTo(byStep, keys, |keys|) == []
  {
  }

  lemma OnlyWithin(byStep: map<StepNo, real>, keys: seq<StepNo>)
    ensures forall i :: TimeMovedOn(byStep, keys, i) ==> i < |keys|
  {
  }

  lemma {:induction false} SomeDeltaIff(byStep: map<StepNo, real>, keys: seq<StepNo>, n: nat)
    requires n <= |keys| && Climbing(keys) && forall k :: k in keys ==> k in byStep
    ensures DeltasUpTo(byStep, keys, n) != [] <==> exists i :: i < n && TimeMovedOn(byStep, keys, i)
  {
    if n >= 2 {
      SomeDeltaIff(byStep, keys, n - 1);
      assert keys[n - 1] in byStep && keys[n - 2] in byStep;
      assert TimeMovedOn(byStep, keys, n - 1) <==> byStep[keys[n - 1]] > byStep[keys[n - 2]];
      hide TimeMovedOn;
    }
  }

  lemma {:induction false} SteadyDeltas(byStep: map<StepNo, real>, keys: seq<StepNo>, n: nat, start: real, pace: real)
    requires n <= |keys| && pace > 0.0 && forall k :: k in keys ==> k in byStep
    requires Climbing(keys)
    requires forall k :: k in byStep ==> byStep[k] == start + pace * k.number as real
    ensures var deltas := DeltasUpTo(byStep, keys, n);
            |deltas| == (if n < 2 then 0 else n - 1) && forall i :: 0 <= i < |deltas| ==> deltas[i] == pace
  {
    if n >= 2 {
      SteadyDeltas(byStep, keys, n - 1, start, pace);
      var steps, seconds := keys[n - 1].number - keys[n - 2].number, byStep[keys[n - 1]] - byStep[keys[n - 2]];
      assert keys[n - 2] in byStep && keys[n - 1] in byStep;
      PaceOfSpan(start, pace, keys[n - 2].number, keys[n - 1].number, seconds);
    }
  }

  lemma PaceOfSpan(start: real, pace: real, a: int, b: int, seconds: real)
    requires a < b && pace > 0.0
    requires seconds == (start + pace * b as real) - (start + pace * a as real)
    ensures seconds > 0.0 && seconds / (b - a) as real == pace
  {
    var span := (b - a) as real;
    assert span > 0.0 && seconds == pace * span;
  }

  lemma {:induction false} AllInside(s: seq<real>, pace: real)
    requires forall i :: 0 <= i < |s| ==> s[i] == pace
    ensures Outside(s, pace, pace) == 0
  {
    if s != [] {
      AllInside(s[1..], pace);
    }
  }

  /** A steady run is measured exactly, whichever of its steps were logged. */
  lemma SteadyRunIsExact(byStep: map<StepNo, real>, start: real, pace: real)
    requires |byStep.Keys| >= 2 && pace > 0.0
    requires forall k :: k in byStep ==> byStep[k] == start + pace * k.number as real
    ensures Rate(byStep) == Some(pace)
  {
    var keys := SortedKeys(byStep.Keys);
    KeysAreSorted(byStep.Keys);
    SteadyDeltas(byStep, keys, |keys|, start, pace);
    AllInside(Deltas(byStep), pace);
    MedianIsInside(Deltas(byStep), pace, pace);
  }
}
