/** The other reads of W&B history: the current step, and a metric's window. */
module History {
  import opened Verdicts
  import opened StepRate

  // --- latest_step -----------------------------------------------------------------------

  /** The highest whole step among the numbers there are. */
  ghost predicate IsHighest(values: seq<Option<real>>, best: Option<int>) {
    match best
    case None => forall v :: v in values ==> v.None?
    case Some(step) =>
      && (exists v :: v in values && v.Some? && Truncate(v.value) == step)
      && (forall v :: v in values && v.Some? ==> Truncate(v.value) <= step)
  }

  lemma HighestStep(values: seq<Option<real>>, value: Option<real>, best: Option<int>)
    requires IsHighest(values, best)
    ensures var next := if value.Some? && (best.None? || Truncate(value.value) > best.value)
                        then Some(Truncate(value.value)) else best;
            IsHighest(values + [value], next)
  {
    hide Truncate;
    assert forall v :: v in values + [value] <==> v in values || v == value;
    if best.Some? {
      var v :| v in values && v.Some? && Truncate(v.value) == best.value;
      assert v in values + [value];
    }
    assert value in values + [value];
  }

  method Highest(values: seq<Option<real>>) returns (best: Option<int>)
    ensures IsHighest(values, best)
  {
    hide IsHighest, Truncate;
    best := None;
    NothingIsHighest();
    for i := 0 to |values|
      invariant IsHighest(values[..i], best)
    {
      HighestStep(values[..i], values[i], best);
      assert values[..i + 1] == values[..i] + [values[i]];
      if values[i].Some? {
        var candidate := Truncate(values[i].value);
        if best.None? || candidate > best.value {
          best := Some(candidate);
        }
      }
    }
    assert values[..|values|] == values;
  }

  lemma NothingIsHighest()
    ensures IsHighest([], None)
  {
  }

  function Steps(rows: seq<Row>): seq<Option<real>> {
    seq(|rows|, i requires 0 <= i < |rows| => rows[i].step)
  }

  function Counters(rows: seq<Row>): seq<Option<real>> {
    seq(|rows|, i requires 0 <= i < |rows| => rows[i].counter)
  }

  ghost predicate Any(values: seq<Option<real>>) {
    exists v :: v in values && v.Some?
  }

  /** The training step wherever a row carries one; W&B's own counter only when no
      row does; the summary only when history has neither. */
  method LatestStep(rows: seq<Row>, summary: Option<real>) returns (latest: Option<int>)
    ensures Any(Steps(rows)) ==> latest.Some? && IsHighest(Steps(rows), latest)
    ensures !Any(Steps(rows)) && Any(Counters(rows)) ==> latest.Some? && IsHighest(Counters(rows), latest)
    ensures !Any(Steps(rows)) && !Any(Counters(rows)) ==>
              latest == if summary.Some? then Some(Truncate(summary.value)) else None
  {
    hide Truncate;
    latest := Highest(Steps(rows));
    if latest.Some? {
      return;
    }
    latest := Highest(Counters(rows));
    if latest.Some? {
      return;
    }
    latest := if summary.Some? then Some(Truncate(summary.value)) else None;
  }

  // --- metric_window -----------------------------------------------------------------------

  /** The samples that are finite numbers, oldest first. */
  function Finite(samples: seq<Option<real>>): seq<real> {
    if samples == [] then []
    else
      var earlier, last := Finite(samples[..|samples| - 1]), samples[|samples| - 1];
      if last.Some? then earlier + [last.value] else earlier
  }

  /** `values[-n:]`; Python reads `-0` as the start. */
  function LastOf(values: seq<real>, n: nat): seq<real> {
    if n == 0 || n >= |values| then values else values[|values| - n..]
  }

  method MetricWindow(samples: seq<Option<real>>, n: nat) returns (window: seq<real>)
    ensures window == LastOf(Finite(samples), n)
    ensures |window| == if n == 0 || |Finite(samples)| < n then |Finite(samples)| else n
    ensures window == Finite(samples)[|Finite(samples)| - |window|..]
  {
    var values: seq<real> := [];
    for i := 0 to |samples|
      invariant values == Finite(samples[..i])
    {
      assert samples[..i + 1][..i] == samples[..i];
      if samples[i].Some? {
        values := values + [samples[i].value];
      }
    }
    assert samples[..|samples|] == samples;
    window := if n == 0 || n >= |values| then values else values[|values| - n..];
  }

  lemma {:induction false} FiniteConcat(a: seq<Option<real>>, b: seq<Option<real>>)
    ensures Finite(a + b) == Finite(a) + Finite(b)
  {
    if b == [] {
      assert a + b == a;
    } else {
      var k := |b| - 1;
      assert (a + b)[..|a| + k] == a + b[..k];
      FiniteConcat(a, b[..k]);
    }
  }

  lemma {:induction false} NothingFinite(gap: seq<Option<real>>)
    requires forall i :: 0 <= i < |gap| ==> gap[i].None?
    ensures Finite(gap) == []
  {
    if gap != [] {
      NothingFinite(gap[..|gap| - 1]);
    }
  }

  /** Samples that are there are all kept, as they are and in order. */
  lemma {:induction false} FiniteKeepsSamples(values: seq<real>)
    ensures Finite(seq(|values|, i requires 0 <= i < |values| => Some(values[i]))) == values
  {
    if values != [] {
      var k := |values| - 1;
      FiniteKeepsSamples(values[..k]);
      var samples := seq(|values|, i requires 0 <= i < |values| => Some(values[i]));
      assert samples[..k] == seq(k, i requires 0 <= i < k => Some(values[..k][i]));
    }
  }

  /** Samples that were never logged are dropped, not read as zeros: a gap anywhere
      in the history changes no window. */
  lemma WindowIgnoresGaps(before: seq<Option<real>>, gap: seq<Option<real>>, after: seq<Option<real>>, n: nat)
    requires forall i :: 0 <= i < |gap| ==> gap[i].None?
    ensures LastOf(Finite(before + gap + after), n) == LastOf(Finite(before + after), n)
  {
    FiniteConcat(before + gap, after);
    FiniteConcat(before, gap);
    FiniteConcat(before, after);
    NothingFinite(gap);
  }

  /** Once the newest `n` finite samples are there, older ones do not matter. */
  lemma WindowIsRecent(older: seq<Option<real>>, newer: seq<Option<real>>, n: nat)
    requires 0 < n <= |Finite(newer)|
    ensures LastOf(Finite(older + newer), n) == LastOf(Finite(newer), n)
    ensures |LastOf(Finite(newer), n)| == n
  {
    FiniteConcat(older, newer);
  }
}
