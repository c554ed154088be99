/** The exponential moving average of the digest. */
module Ema {
  import opened Trend

  function Alpha(span: real): real
    requires span != -1.0
  {
    2.0 / (span + 1.0)
  }

  /** The average after the `i`-th value. */
  function Average(values: seq<real>, alpha: real, i: nat): real
    requires i < |values|
  {
    if i == 0 then values[0] else alpha * values[i] + (1.0 - alpha) * Average(values, alpha, i - 1)
  }

  /** Of span + 1 shares two go to the new value, the rest to the average before it. */
  predicate Blends(span: real, v: real, was: real, now: real) {
    (span + 1.0) * now == 2.0 * v + (span - 1.0) * was
  }

  lemma WeightIsShared(span: real, alpha: real, v: real, w: real, now: real)
    requires span != -1.0 && alpha == 2.0 / (span + 1.0) && now == Times(alpha, v) + Times(1.0 - alpha, w)
    ensures Blends(span, v, w, now)
  {
    Quotient(2.0, span + 1.0);
    assert Times(span + 1.0, alpha) == 2.0;
    Shares(span + 1.0, alpha, v, w);
    assert 2.0 * v + (span + 1.0 - 2.0) * w == 2.0 * v + (span - 1.0) * w;
  }

  lemma AverageBlends(values: seq<real>, span: real, i: nat)
    requires 0 < i < |values| && span != -1.0
    ensures Blends(span, values[i], Average(values, Alpha(span), i - 1), Average(values, Alpha(span), i))
  {
    var was, now := Average(values, Alpha(span), i - 1), Average(values, Alpha(span), i);
    AverageStep(values, Alpha(span), i);
    hide Average, Times;
    WeightIsShared(span, Alpha(span), values[i], was, now);
  }

  lemma Shares(n: real, alpha: real, v: real, w: real)
    ensures n * (alpha * v + (1.0 - alpha) * w) == Times(Times(n, alpha), v) + Times(n - Times(n, alpha), w)
  {
  }

  /** `ema`. With values to smooth, a span of -1 would divide by zero. */
  method Smooth(values: seq<real>, span: real) returns (out: seq<real>)
    requires values == [] || span != -1.0
    ensures |out| == |values|
    ensures forall i :: 0 <= i < |values| ==> out[i] == Average(values, Alpha(span), i)
    ensures values != [] ==> out[0] == values[0]
    ensures forall i :: 0 < i < |values| ==> Blends(span, values[i], out[i - 1], out[i])
  {
    if values == [] {
      return [];
    }
    var alpha := 2.0 / (span + 1.0);
    out := [values[0]];
    for i := 1 to |values|
      invariant |out| == i
      invariant forall k :: 0 <= k < i ==> out[k] == Average(values, alpha, k)
    {
      var next := alpha * values[i] + (1.0 - alpha) * out[i - 1];
      assert next == Average(values, alpha, i) by { assert out[i - 1] == Average(values, alpha, i - 1); }
      hide Average;
      out := out + [next];
    }
    hide Average, Blends;
    assert out[0] == values[0] by { AverageStep(values, alpha, 0); }
    forall i | 0 < i < |values| ensures Blends(span, values[i], out[i - 1], out[i]) {
      AverageBlends(values, span, i);
      assert out[i - 1] == Average(values, Alpha(span), i - 1);
    }
  }

  function Power(base: real, k: nat): real {
    if k == 0 then 1.0 else base * Power(base, k - 1)
  }

  /** Sum of (1 - alpha)^k * values[i - k] for the `n` most recent values. */
  function Weighted(values: seq<real>, alpha: real, i: nat, n: nat): real
    requires i < |values| && n <= i + 1
  {
    if n == 0 then 0.0
    else Weighted(values, alpha, i, n - 1) + Power(1.0 - alpha, n - 1) * values[i - (n - 1)]
  }

  lemma PowerStep(base: real, k: nat)
    ensures Power(base, k + 1) == Times(base, Power(base, k)) && Power(base, 0) == 1.0
  {
  }

  lemma WeightedStep(values: seq<real>, alpha: real, i: nat, n: nat)
    requires i < |values| && 0 < n <= i + 1
    ensures Weighted(values, alpha, i, n) ==
              Weighted(values, alpha, i, n - 1) + Times(Power(1.0 - alpha, n - 1), values[i - (n - 1)])
    ensures Weighted(values, alpha, i, 0) == 0.0
  {
  }

  lemma AverageStep(values: seq<real>, alpha: real, i: nat)
    requires i < |values|
    ensures i > 0 ==>
              Average(values, alpha, i) == Times(alpha, values[i]) + Times(1.0 - alpha, Average(values, alpha, i - 1))
    ensures i == 0 ==> Average(values, alpha, i) == values[0]
  {
  }

  /** One value later, the old weights have all decayed once. */
  lemma {:induction false} WeightsDecay(values: seq<real>, alpha: real, i: nat, n: nat)
    requires 0 < i < |values| && n <= i
    ensures Weighted(values, alpha, i, n + 1) == values[i] + Times(1.0 - alpha, Weighted(values, alpha, i - 1, n))
  {
    hide *;
    WeightedStep(values, alpha, i, n + 1);
    PowerStep(1.0 - alpha, n);
    if n == 0 {
      WeightedStep(values, alpha, i - 1, 1);
      Units(values[i], 1.0 - alpha);
    } else {
      WeightsDecay(values, alpha, i, n - 1);
      WeightedStep(values, alpha, i - 1, n);
      PowerStep(1.0 - alpha, n - 1);
      Decay(1.0 - alpha, Weighted(values, alpha, i - 1, n - 1), Power(1.0 - alpha, n - 1), values[i - n]);
    }
  }

  lemma Units(v: real, q: real)
    ensures Times(1.0, v) == v && Times(q, 0.0) == 0.0
  {
  }

  lemma Decay(q: real, sum: real, power: real, v: real)
    ensures Times(q, sum) + Times(Times(q, power), v) == Times(q, sum + Times(power, v))
  {
  }

  lemma ClosedStep(alpha: real, v: real, sum: real, power: real, first: real)
    ensures Times(alpha, v) + Times(1.0 - alpha, Times(alpha, sum) + Times(power, first)) ==
              Times(alpha, v + Times(1.0 - alpha, sum)) + Times(Times(1.0 - alpha, power), first)
    ensures Times(alpha, 0.0) + Times(1.0, first) == first
  {
  }

  lemma {:induction false} AverageExpands(values: seq<real>, alpha: real, i: nat)
    requires i < |values|
    ensures Average(values, alpha, i) ==
              Times(alpha, Weighted(values, alpha, i, i)) + Times(Power(1.0 - alpha, i), values[0])
  {
    hide *;
    AverageStep(values, alpha, i);
    PowerStep(1.0 - alpha, if i == 0 then 0 else i - 1);
    if i == 0 {
      WeightedStep(values, alpha, 0, 1);
      ClosedStep(alpha, 0.0, 0.0, 0.0, values[0]);
    } else {
      AverageExpands(values, alpha, i - 1);
      WeightsDecay(values, alpha, i, i - 1);
      ClosedStep(alpha, values[i], Weighted(values, alpha, i - 1, i - 1), Power(1.0 - alpha, i - 1), values[0]);
    }
  }

  /** The closed form: geometric weights on the recent values, and what is left of
      the weight on the first. */
  lemma AverageIsGeometric(values: seq<real>, alpha: real, i: nat)
    requires i < |values|
    ensures Average(values, alpha, i) ==
              alpha * Weighted(values, alpha, i, i) + Power(1.0 - alpha, i) * values[0]
  {
    AverageExpands(values, alpha, i);
    hide Average, Weighted, Power;
  }

  // --- what smoothing never does -----------------------------------------------------------

  lemma AlphaIsAWeight(span: real)
    requires span >= 1.0
    ensures 0.0 < Alpha(span) <= 1.0
  {
  }

  lemma NonNegativeProduct(a: real, b: real)
    requires a >= 0.0 && b >= 0.0
    ensures Times(a, b) >= 0.0
  {
  }

  lemma MixedFrom(alpha: real, v: real, w: real)
    ensures Times(alpha, v) + Times(1.0 - alpha, w) == v + Times(1.0 - alpha, w - v) == w - Times(alpha, w - v)
    ensures Times(alpha, v) + Times(1.0 - alpha, w) == w + Times(alpha, v - w) == v - Times(1.0 - alpha, v - w)
  {
  }

  lemma MixIsBetween(alpha: real, v: real, w: real)
    requires 0.0 <= alpha <= 1.0
    ensures v <= w ==> v <= Times(alpha, v) + Times(1.0 - alpha, w) <= w
    ensures w <= v ==> w <= Times(alpha, v) + Times(1.0 - alpha, w) <= v
  {
    hide Times;
    MixedFrom(alpha, v, w);
    if v <= w {
      NonNegativeProduct(alpha, w - v);
      NonNegativeProduct(1.0 - alpha, w - v);
    } else {
      NonNegativeProduct(alpha, v - w);
      NonNegativeProduct(1.0 - alpha, v - w);
    }
  }

  /** An average never leaves the range of the values it has seen. */
  lemma {:induction false} AverageStaysInRange(values: seq<real>, span: real, i: nat, lo: real, hi: real)
    requires i < |values| && span >= 1.0
    requires forall k :: 0 <= k <= i ==> lo <= values[k] <= hi
    ensures lo <= Average(values, Alpha(span), i) <= hi
  {
    AlphaIsAWeight(span);
    AverageStep(values, Alpha(span), i);
    if i > 0 {
      AverageStaysInRange(values, span, i - 1, lo, hi);
      MixIsBetween(Alpha(span), values[i], Average(values, Alpha(span), i - 1));
    }
    hide Average, Alpha, Times;
  }

  /** On values that never fall it never falls either, and never runs ahead. */
  lemma {:induction false} AverageFollows(values: seq<real>, span: real, i: nat)
    requires i < |values| && span >= 1.0
    requires forall j, k :: 0 <= j < k < |values| ==> values[j] <= values[k]
    ensures Average(values, Alpha(span), i) <= values[i]
    ensures i > 0 ==> Average(values, Alpha(span), i - 1) <= Average(values, Alpha(span), i)
  {
    AlphaIsAWeight(span);
    AverageStep(values, Alpha(span), i);
    if i > 0 {
      AverageFollows(values, span, i - 1);
      MixIsBetween(Alpha(span), values[i], Average(values, Alpha(span), i - 1));
    }
    hide Average, Alpha, Times;
  }

  /** It forgets: two histories that agree from some point on have averages whose
      difference decays by the same factor at every value after it. */
  lemma {:induction false} AverageForgets(a: seq<real>, b: seq<real>, alpha: real, from: nat, n: nat)
    requires from + n < |a| == |b|
    requires forall k :: from < k < |a| ==> a[k] == b[k]
    ensures Average(a, alpha, from + n) - Average(b, alpha, from + n) ==
              Times(Power(1.0 - alpha, n), Average(a, alpha, from) - Average(b, alpha, from))
  {
    hide *;
    PowerStep(1.0 - alpha, if n == 0 then 0 else n - 1);
    if n == 0 {
      Units(Average(a, alpha, from) - Average(b, alpha, from), 0.0);
    } else {
      AverageForgets(a, b, alpha, from, n - 1);
      AverageStep(a, alpha, from + n);
      AverageStep(b, alpha, from + n);
      DifferenceDecays(1.0 - alpha, Average(a, alpha, from + n - 1), Average(b, alpha, from + n - 1),
                       Power(1.0 - alpha, n - 1), Average(a, alpha, from) - Average(b, alpha, from));
    }
  }

  lemma DifferenceDecays(q: real, a: real, b: real, power: real, gap: real)
    requires a - b == Times(power, gap)
    ensures Times(q, a) - Times(q, b) == Times(Times(q, power), gap)
  {
    assert q * (a - b) == q * (power * gap);
  }
}
