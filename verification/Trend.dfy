/** The least-squares slope that drives the shape probes. */
module Trend {

  // --- the slope as it is computed ----------------------------------------------------

  function Sum(vs: seq<real>): real {
    if vs == [] then 0.0 else Sum(vs[..|vs| - 1]) + vs[|vs| - 1]
  }

  /** Sum of (i - meanX) * (v_i - meanY) over the first `k` samples. */
  function Numerator(vs: seq<real>, meanX: real, meanY: real, k: nat): real
    requires k <= |vs|
  {
    if k == 0 then 0.0
    else Numerator(vs, meanX, meanY, k - 1) + ((k - 1) as real - meanX) * (vs[k - 1] - meanY)
  }

  /** Sum of (i - meanX)^2 over the first `k` indices. */
  function Denominator(meanX: real, k: nat): real {
    if k == 0 then 0.0
    else Denominator(meanX, k - 1) + ((k - 1) as real - meanX) * ((k - 1) as real - meanX)
  }

  function MeanX(n: nat): real {
    (n as real - 1.0) / 2.0
  }

  function MeanY(vs: seq<real>): real
    requires vs != []
  {
    Sum(vs) / |vs| as real
  }

  function Slope(vs: seq<real>): real {
    var n := |vs|;
    if n < 2 then 0.0
    else
      var numerator := Numerator(vs, MeanX(n), MeanY(vs), n);
      var denominator := Denominator(MeanX(n), n);
      if denominator != 0.0 then numerator / denominator else 0.0
  }

  // --- what the sums are compared with ---------------------------------------------------

  /** Sum of i * v_i. */
  function Moment(vs: seq<real>): real {
    if vs == [] then 0.0 else Moment(vs[..|vs| - 1]) + (|vs| - 1) as real * vs[|vs| - 1]
  }

  ghost function SkewForm(moment: real, sum: real, x: real): real {
    2.0 * moment - (x - 1.0) * sum
  }

  /** Twice the numerator, without the mean of the samples. */
  ghost function Skew(vs: seq<real>): real {
    SkewForm(Moment(vs), Sum(vs), |vs| as real)
  }

  /** Squared residuals of the line a + b*i on the first `k` samples. */
  function Residuals(vs: seq<real>, a: real, b: real, k: nat): real
    requires k <= |vs|
  {
    if k == 0 then 0.0
    else
      var r := vs[k - 1] - a - b * (k - 1) as real;
      Residuals(vs, a, b, k - 1) + r * r
  }

  /** Squared distances from the mean. */
  function Spread(vs: seq<real>, my: real, k: nat): real
    requires k <= |vs|
  {
    if k == 0 then 0.0 else Spread(vs, my, k - 1) + (vs[k - 1] - my) * (vs[k - 1] - my)
  }

  // --- arithmetic, each fact on its own ------------------------------------------------------

  function Times(a: real, b: real): real {
    a * b
  }

  lemma Quotient(num: real, d: real)
    requires d != 0.0
    ensures Times(d, num / d) == num
  {
  }

  lemma SignOfProduct(d: real, s: real)
    requires d > 0.0
    ensures s > 0.0 <==> Times(d, s) > 0.0
    ensures s < 0.0 <==> Times(d, s) < 0.0
  {
  }

  lemma SignOfSquare(p: real)
    ensures Times(p, p) >= 0.0 && (Times(p, p) == 0.0 <==> p == 0.0)
  {
    if p > 0.0 {
      SignOfProduct(p, p);
    } else if p < 0.0 {
      SignOfProduct(-p, -p);
    }
  }

  lemma WeightedSquare(d: real, p: real)
    requires d > 0.0
    ensures Times(d, Times(p, p)) >= 0.0 && (Times(d, Times(p, p)) == 0.0 <==> p == 0.0)
  {
    hide Times;
    SignOfSquare(p);
    SignOfProduct(d, Times(p, p));
  }

  lemma SameFactor(d: real, p: real, q: real)
    requires d > 0.0 && Times(d, p) == Times(d, q)
    ensures p == q
  {
    SignOfProduct(d, p - q);
  }

  /** The numerator of `x` samples, from their moment and sum. */
  ghost function NumForm(moment: real, sum: real, x: real, mx: real, my: real): real {
    moment - mx * sum - my * (x * (x - 1.0) / 2.0) + x * mx * my
  }

  lemma NumFormGrows(moment: real, sum: real, x: real, v: real, mx: real, my: real)
    ensures NumForm(moment + Times(x, v), sum + v, x + 1.0, mx, my) ==
              NumForm(moment, sum, x, mx, my) + Times(x - mx, v - my)
    ensures NumForm(0.0, 0.0, 0.0, mx, my) == 0.0
  {
  }

  ghost function DenForm(x: real, mx: real): real {
    (x - 1.0) * x * (2.0 * x - 1.0) / 6.0 - mx * (x * (x - 1.0)) + x * mx * mx
  }

  lemma DenFormGrows(x: real, mx: real)
    ensures DenForm(x + 1.0, mx) == DenForm(x, mx) + Times(x - mx, x - mx)
    ensures DenForm(0.0, mx) == 0.0
  {
  }

  lemma DenFormInTheEnd(x: real, mx: real)
    requires mx == (x - 1.0) / 2.0
    ensures DenForm(x, mx) == x * (x * x - 1.0) / 12.0
  {
  }

  /** Residuals of a line that misses the centre of `x` samples by `c`. */
  ghost function Missed(
    spread: real, num: real, den: real, sum: real, x: real, mx: real, my: real, b: real, c: real): real
  {
    spread - 2.0 * b * num + b * b * den + x * (c * c) + 2.0 * c * (sum - x * my - b * (x * (x - 1.0) / 2.0 - x * mx))
  }

  lemma MissedGrows(
    spread: real, num: real, den: real, sum: real, x: real, mx: real, my: real, b: real, c: real, v: real, r: real)
    requires r == (v - my) - Times(b, x - mx) + c
    ensures var w, u := v - my, x - mx;
            Missed(spread + Times(w, w), num + Times(u, w), den + Times(u, u), sum + v, x + 1.0, mx, my, b, c) ==
              Missed(spread, num, den, sum, x, mx, my, b, c) + Times(r, r)
  {
    var w, u := v - my, x - mx;
    assert Times(r, r) == (w - b * u + c) * (w - b * u + c);
  }

  lemma NothingMissed(mx: real, my: real, b: real, c: real)
    ensures Missed(0.0, 0.0, 0.0, 0.0, 0.0, mx, my, b, c) == 0.0
  {
  }

  lemma ResidualFromCentre(v: real, a: real, b: real, x: real, mx: real, my: real, centre: real)
    requires centre == my - Times(b, mx)
    ensures v - a - Times(b, x) == (v - my) - Times(b, x - mx) + (centre - a)
  {
  }

  /** Against the best slope and the centre, only the two misses are left. */
  lemma MissedInTheEnd(
    spread: real, num: real, den: real, sum: real, x: real, mx: real, my: real, b: real, c: real, s: real)
    requires Times(den, s) == num && Times(x, my) == sum && mx == (x - 1.0) / 2.0
    ensures Missed(spread, num, den, sum, x, mx, my, b, c) - Missed(spread, num, den, sum, x, mx, my, s, 0.0)
            == Times(den, Times(b - s, b - s)) + Times(x, Times(c, c))
  {
    assert num * b == den * s * b;
    assert num * s == den * s * s;
  }

  // --- closed forms ----------------------------------------------------------------------------

  lemma SumsUnfold(vs: seq<real>)
    requires vs != []
    ensures var k := |vs| - 1;
            Sum(vs) == Sum(vs[..k]) + vs[k] && Moment(vs) == Moment(vs[..k]) + Times(k as real, vs[k])
  {
  }

  lemma ResidualUnfolds(vs: seq<real>, a: real, b: real, k: nat)
    requires 0 < k <= |vs|
    ensures var r := vs[k - 1] - a - Times(b, (k - 1) as real);
            Residuals(vs, a, b, k) == Residuals(vs, a, b, k - 1) + Times(r, r)
  {
    var r := vs[k - 1] - a - b * (k - 1) as real;
    assert Times(r, r) == r * r;
  }

  lemma SpreadUnfolds(vs: seq<real>, my: real, k: nat)
    requires 0 < k <= |vs|
    ensures Spread(vs, my, k) == Spread(vs, my, k - 1) + Times(vs[k - 1] - my, vs[k - 1] - my)
  {
  }

  lemma SlopePartsUnfold(vs: seq<real>, mx: real, my: real, k: nat)
    requires 0 < k <= |vs|
    ensures var u := (k - 1) as real - mx;
            && Numerator(vs, mx, my, k) == Numerator(vs, mx, my, k - 1) + Times(u, vs[k - 1] - my)
            && Denominator(mx, k) == Denominator(mx, k - 1) + Times(u, u)
  {
  }

  lemma FormsStart(vs: seq<real>, mx: real, my: real, a: real, b: real)
    ensures Numerator(vs, mx, my, 0) == 0.0 && Denominator(mx, 0) == 0.0
    ensures Spread(vs, my, 0) == 0.0 && Residuals(vs, a, b, 0) == 0.0
    ensures Sum(vs[..0]) == 0.0 && Moment(vs[..0]) == 0.0
  {
  }

  lemma {:induction false} NumeratorExpands(vs: seq<real>, mx: real, my: real, k: nat)
    requires k <= |vs|
    ensures Numerator(vs, mx, my, k) == NumForm(Moment(vs[..k]), Sum(vs[..k]), k as real, mx, my)
  {
    hide *;
    if k == 0 {
      FormsStart(vs, mx, my, 0.0, 0.0);
      NumFormGrows(0.0, 0.0, 0.0, 0.0, mx, my);
    } else {
      NumeratorExpands(vs, mx, my, k - 1);
      SlopePartsUnfold(vs, mx, my, k);
      assert vs[..k][..k - 1] == vs[..k - 1];
      SumsUnfold(vs[..k]);
      NumFormGrows(Moment(vs[..k - 1]), Sum(vs[..k - 1]), (k - 1) as real, vs[k - 1], mx, my);
    }
  }

  lemma {:induction false} DenominatorExpands(mx: real, k: nat)
    ensures Denominator(mx, k) == DenForm(k as real, mx)
  {
    hide *;
    DenFormGrows((k - 1) as real, mx);
    if k == 0 {
      FormsStart([], mx, 0.0, 0.0, 0.0);
    } else {
      DenominatorExpands(mx, k - 1);
      var any := seq(k, _ => 0.0);
      SlopePartsUnfold(any, mx, 0.0, k);
    }
  }

  /** The denominator is n(n^2 - 1)/12: never zero once there are two points. */
  lemma DenominatorIsPositive(n: nat)
    requires n >= 2
    ensures Denominator(MeanX(n), n) == n as real * (n as real * n as real - 1.0) / 12.0
    ensures Denominator(MeanX(n), n) > 0.0
  {
    hide Denominator, DenForm;
    DenominatorExpands(MeanX(n), n);
    DenFormInTheEnd(n as real, MeanX(n));
    CubeIsPositive(n as real);
  }

  lemma CubeIsPositive(x: real)
    requires x >= 2.0
    ensures x * (x * x - 1.0) / 12.0 > 0.0
  {
    assert x * x >= 4.0;
    SignOfProduct(x, x * x - 1.0);
  }

  lemma NumFormInTheEnd(moment: real, sum: real, x: real, my: real)
    ensures 2.0 * NumForm(moment, sum, x, (x - 1.0) / 2.0, my) == SkewForm(moment, sum, x)
  {
  }

  lemma NumeratorIsSkew(vs: seq<real>)
    requires |vs| >= 1
    ensures 2.0 * Numerator(vs, MeanX(|vs|), MeanY(vs), |vs|) == Skew(vs)
  {
    hide Numerator, NumForm, Moment, Sum, MeanY, SkewForm;
    NumeratorExpands(vs, MeanX(|vs|), MeanY(vs), |vs|);
    assert vs[..|vs|] == vs;
    NumFormInTheEnd(Moment(vs), Sum(vs), |vs| as real, MeanY(vs));
  }

  lemma SlopeIsQuotient(vs: seq<real>)
    requires |vs| >= 2
    ensures Denominator(MeanX(|vs|), |vs|) > 0.0
    ensures Times(Denominator(MeanX(|vs|), |vs|), Slope(vs)) == Numerator(vs, MeanX(|vs|), MeanY(vs), |vs|)
  {
    DenominatorIsPositive(|vs|);
    hide Denominator, Numerator, MeanX, MeanY, Times;
    Quotient(Numerator(vs, MeanX(|vs|), MeanY(vs), |vs|), Denominator(MeanX(|vs|), |vs|));
  }

  /** The slope has the sign of the skew, and times a factor of its length is it. */
  lemma SlopeIsSkew(vs: seq<real>)
    requires |vs| >= 2
    ensures Denominator(MeanX(|vs|), |vs|) > 0.0
    ensures 2.0 * Times(Denominator(MeanX(|vs|), |vs|), Slope(vs)) == Skew(vs)
    ensures Slope(vs) > 0.0 <==> Skew(vs) > 0.0
    ensures Slope(vs) < 0.0 <==> Skew(vs) < 0.0
  {
    hide *;
    SlopeIsQuotient(vs);
    NumeratorIsSkew(vs);
    SignOfProduct(Denominator(MeanX(|vs|), |vs|), Slope(vs));
  }

  // --- least squares ----------------------------------------------------------------------

  lemma {:induction false} ResidualsExpand(
    vs: seq<real>, mx: real, my: real, a: real, b: real, centre: real, k: nat)
    requires k <= |vs| && centre == my - Times(b, mx)
    ensures Residuals(vs, a, b, k) ==
              Missed(Spread(vs, my, k), Numerator(vs, mx, my, k), Denominator(mx, k), Sum(vs[..k]),
                     k as real, mx, my, b, centre - a)
  {
    hide *;
    if k == 0 {
      FormsStart(vs, mx, my, a, b);
      NothingMissed(mx, my, b, centre - a);
    } else {
      ResidualsExpand(vs, mx, my, a, b, centre, k - 1);
      SlopePartsUnfold(vs, mx, my, k);
      SpreadUnfolds(vs, my, k);
      ResidualUnfolds(vs, a, b, k);
      assert vs[..k][..k - 1] == vs[..k - 1];
      SumsUnfold(vs[..k]);
      var x, v := (k - 1) as real, vs[k - 1];
      ResidualFromCentre(v, a, b, x, mx, my, centre);
      MissedGrows(Spread(vs, my, k - 1), Numerator(vs, mx, my, k - 1), Denominator(mx, k - 1), Sum(vs[..k - 1]),
                  x, mx, my, b, centre - a, v, v - a - Times(b, x));
    }
  }

  /** Where a line with slope `b` through the centre of the samples starts. */
  function Centred(vs: seq<real>, b: real): real
    requires vs != []
  {
    MeanY(vs) - b * MeanX(|vs|)
  }

  /** The slope belongs to the one line with the least squared residuals: every
      other line has strictly more. */
  lemma SlopeIsLeastSquares(vs: seq<real>, a: real, b: real)
    requires |vs| >= 2
    ensures var n, s := |vs|, Slope(vs);
            var best := Centred(vs, s);
            && Residuals(vs, best, s, n) <= Residuals(vs, a, b, n)
            && (Residuals(vs, best, s, n) == Residuals(vs, a, b, n) <==> a == best && b == s)
  {
    var n, s := |vs|, Slope(vs);
    var mx, my, x := MeanX(n), MeanY(vs), n as real;
    var best, c := Centred(vs, s), Centred(vs, b) - a;
    assert Centred(vs, s) == my - Times(s, mx) && Centred(vs, b) == my - Times(b, mx);
    assert vs[..n] == vs && mx == (x - 1.0) / 2.0 && my == Sum(vs) / x;
    hide *;
    Quotient(Sum(vs), x);
    ResidualsExpand(vs, mx, my, a, b, Centred(vs, b), n);
    ResidualsExpand(vs, mx, my, best, s, best, n);
    SlopeIsQuotient(vs);
    MissedInTheEnd(Spread(vs, my, n), Numerator(vs, mx, my, n), Denominator(mx, n), Sum(vs), x, mx, my, b, c, s);
    WeightedSquare(Denominator(mx, n), b - s);
    WeightedSquare(x, c);
  }

  // --- exact on lines, blind to units, odd under reversal ----------------------------------------

  /** The same samples in other units: scaled, then shifted. */
  function Rescaled(vs: seq<real>, scale: real, shift: real): (more: seq<real>)
    ensures |more| == |vs| && forall i :: 0 <= i < |vs| ==> more[i] == Times(scale, vs[i]) + shift
  {
    seq(|vs|, i requires 0 <= i < |vs| => Times(scale, vs[i]) + shift)
  }

  function Line(intercept: real, slope: real, n: nat): (line: seq<real>)
    ensures |line| == n && forall i :: 0 <= i < n ==> line[i] == intercept + Times(slope, i as real)
  {
    seq(n, i requires 0 <= i < n => intercept + Times(slope, i as real))
  }

  ghost function SumForm(sum: real, x: real, scale: real, shift: real): real {
    scale * sum + x * shift
  }

  ghost function MomentForm(moment: real, x: real, scale: real, shift: real): real {
    scale * moment + shift * (x * (x - 1.0) / 2.0)
  }

  lemma FormsRescale(moment: real, sum: real, v: real, scale: real, shift: real, x: real)
    ensures SumForm(sum + v, x + 1.0, scale, shift) == SumForm(sum, x, scale, shift) + (Times(scale, v) + shift)
    ensures MomentForm(moment + Times(x, v), x + 1.0, scale, shift) ==
              MomentForm(moment, x, scale, shift) + Times(x, Times(scale, v) + shift)
    ensures SumForm(0.0, 0.0, scale, shift) == 0.0 && MomentForm(0.0, 0.0, scale, shift) == 0.0
  {
  }

  lemma {:induction false} RescaledSums(vs: seq<real>, scale: real, shift: real)
    ensures var more := Rescaled(vs, scale, shift);
            && Sum(more) == SumForm(Sum(vs), |vs| as real, scale, shift)
            && Moment(more) == MomentForm(Moment(vs), |vs| as real, scale, shift)
  {
    if vs == [] {
      FormsRescale(0.0, 0.0, 0.0, scale, shift, 0.0);
      hide SumForm, MomentForm;
    } else {
      hide *;
      var k, more := |vs| - 1, Rescaled(vs, scale, shift);
      RescaledSums(vs[..k], scale, shift);
      assert more[..k] == Rescaled(vs[..k], scale, shift);
      SumsUnfold(vs);
      SumsUnfold(more);
      FormsRescale(Moment(vs[..k]), Sum(vs[..k]), vs[k], scale, shift, k as real);
    }
  }

  lemma SkewFormRescales(moment: real, sum: real, x: real, scale: real, shift: real)
    ensures SkewForm(MomentForm(moment, x, scale, shift), SumForm(sum, x, scale, shift), x) ==
              Times(scale, SkewForm(moment, sum, x))
  {
  }

  lemma SkewRescales(vs: seq<real>, scale: real, shift: real)
    ensures Skew(Rescaled(vs, scale, shift)) == Times(scale, Skew(vs))
  {
    hide Sum, Moment, Rescaled, Times, SumForm, MomentForm, SkewForm;
    RescaledSums(vs, scale, shift);
    SkewFormRescales(Moment(vs), Sum(vs), |vs| as real, scale, shift);
  }

  /** Scaling the samples scales the slope; shifting them leaves it alone. */
  lemma SlopeRescales(vs: seq<real>, scale: real, shift: real)
    ensures Slope(Rescaled(vs, scale, shift)) == scale * Slope(vs)
  {
    if |vs| >= 2 {
      var more, d := Rescaled(vs, scale, shift), Denominator(MeanX(|vs|), |vs|);
      assert Slope(more) == Times(scale, Slope(vs)) by {
        hide *;
        SlopeIsSkew(vs);
        SlopeIsSkew(more);
        SkewRescales(vs, scale, shift);
        SameSlope(d, Slope(more), Slope(vs), scale);
      }
      hide Slope, Rescaled, Denominator, MeanX;
    }
  }

  lemma SameSlope(d: real, p: real, q: real, scale: real)
    requires d > 0.0 && 2.0 * Times(d, p) == Times(scale, 2.0 * Times(d, q))
    ensures p == Times(scale, q)
  {
    assert Times(scale, 2.0 * Times(d, q)) == 2.0 * Times(d, Times(scale, q));
    SameFactor(d, p, Times(scale, q));
  }

  ghost function IndexSum(x: real): real {
    x * (x - 1.0) / 2.0
  }

  ghost function IndexSquares(x: real): real {
    (x - 1.0) * x * (2.0 * x - 1.0) / 6.0
  }

  lemma IndexFormsGrow(x: real)
    ensures IndexSum(x + 1.0) == IndexSum(x) + Times(1.0, x)
    ensures IndexSquares(x + 1.0) == IndexSquares(x) + Times(x, Times(1.0, x))
    ensures IndexSum(0.0) == 0.0 && IndexSquares(0.0) == 0.0
  {
  }

  lemma {:induction false} IndexSums(n: nat)
    ensures Sum(Line(0.0, 1.0, n)) == IndexSum(n as real)
    ensures Moment(Line(0.0, 1.0, n)) == IndexSquares(n as real)
  {
    if n == 0 {
      IndexFormsGrow(0.0);
      hide IndexSum, IndexSquares;
    } else {
      hide *;
      var unit := Line(0.0, 1.0, n);
      IndexSums(n - 1);
      assert unit[..n - 1] == Line(0.0, 1.0, n - 1);
      SumsUnfold(unit);
      IndexFormsGrow((n - 1) as real);
    }
  }

  lemma UnitSkew(x: real)
    ensures SkewForm(IndexSquares(x), IndexSum(x), x) == 2.0 * (x * (x * x - 1.0) / 12.0)
  {
  }

  lemma UnitSlope(n: nat)
    requires n >= 2
    ensures Slope(Line(0.0, 1.0, n)) == 1.0
  {
    var unit, d := Line(0.0, 1.0, n), Denominator(MeanX(n), n);
    assert Skew(unit) == 2.0 * d by {
      hide Denominator, MeanX, Sum, Moment, Line, SkewForm, IndexSum, IndexSquares;
      IndexSums(n);
      UnitSkew(n as real);
      DenominatorIsPositive(n);
    }
    assert Times(d, 1.0) == d;
    hide *;
    SlopeIsSkew(unit);
    SameFactor(d, Slope(unit), 1.0);
  }

  /** On points that lie on a line the slope is that line's slope. */
  lemma SlopeIsExactOnLines(intercept: real, slope: real, n: nat)
    requires n >= 2
    ensures Slope(Line(intercept, slope, n)) == slope
  {
    var unit := Line(0.0, 1.0, n);
    assert forall i :: 0 <= i < n ==> unit[i] == i as real;
    assert Rescaled(unit, slope, intercept) == Line(intercept, slope, n);
    hide *;
    UnitSlope(n);
    SlopeRescales(unit, slope, intercept);
  }

  function Reversed(vs: seq<real>): seq<real> {
    seq(|vs|, i requires 0 <= i < |vs| => vs[|vs| - 1 - i])
  }

  lemma {:induction false} PrependSums(v: real, vs: seq<real>)
    ensures Sum([v] + vs) == v + Sum(vs) && Moment([v] + vs) == Moment(vs) + Sum(vs)
  {
    if vs == [] {
      assert [v] + vs == [v] && [v][..0] == [];
    } else {
      var k := |vs| - 1;
      PrependSums(v, vs[..k]);
      assert ([v] + vs)[..k + 1] == [v] + vs[..k];
      hide *;
      SumsUnfold(vs);
      SumsUnfold([v] + vs);
      NextProduct(k as real, vs[k]);
    }
  }

  lemma NextProduct(x: real, v: real)
    ensures Times(x + 1.0, v) == Times(x, v) + v
  {
  }

  lemma ReversedForms(moment: real, sum: real, x: real, v: real)
    ensures ((x - 1.0) * sum - moment) + sum == x * (sum + v) - (moment + Times(x, v))
  {
  }

  lemma {:induction false} ReversedSums(vs: seq<real>)
    ensures Sum(Reversed(vs)) == Sum(vs)
    ensures Moment(Reversed(vs)) == (|vs| as real - 1.0) * Sum(vs) - Moment(vs)
  {
    if vs != [] {
      var k := |vs| - 1;
      assert Reversed(vs) == [vs[k]] + Reversed(vs[..k]);
      hide *;
      ReversedSums(vs[..k]);
      PrependSums(vs[k], Reversed(vs[..k]));
      SumsUnfold(vs);
      ReversedForms(Moment(vs[..k]), Sum(vs[..k]), k as real, vs[k]);
    }
  }

  lemma OppositeSkew(moment: real, sum: real, x: real)
    ensures SkewForm((x - 1.0) * sum - moment, sum, x) == Times(-1.0, SkewForm(moment, sum, x))
  {
  }

  lemma ReversedSkew(vs: seq<real>)
    ensures Skew(Reversed(vs)) == Times(-1.0, Skew(vs)) && |Reversed(vs)| == |vs|
  {
    assert |Reversed(vs)| == |vs|;
    hide Reversed, Sum, Moment, Times, SkewForm;
    ReversedSums(vs);
    OppositeSkew(Moment(vs), Sum(vs), |vs| as real);
  }

  /** Played backwards, a series has the opposite slope. */
  lemma SlopeIsOdd(vs: seq<real>)
    ensures Slope(Reversed(vs)) == -Slope(vs)
  {
    if |vs| >= 2 {
      assert Times(-1.0, Slope(vs)) == -Slope(vs);
      hide *;
      ReversedSkew(vs);
      SlopeIsSkew(vs);
      SlopeIsSkew(Reversed(vs));
      SameSlope(Denominator(MeanX(|vs|), |vs|), Slope(Reversed(vs)), Slope(vs), -1.0);
    }
  }

  // --- monotone series ------------------------------------------------------------------------------

  ghost predicate NonDecreasing(vs: seq<real>) {
    forall i, j :: 0 <= i < j < |vs| ==> vs[i] <= vs[j]
  }

  ghost predicate NonIncreasing(vs: seq<real>) {
    forall i, j :: 0 <= i < j < |vs| ==> vs[i] >= vs[j]
  }

  ghost predicate Constant(vs: seq<real>) {
    forall i, j :: 0 <= i < j < |vs| ==> vs[i] == vs[j]
  }

  ghost predicate AllAre(vs: seq<real>, v: real) {
    forall i :: 0 <= i < |vs| ==> vs[i] == v
  }

  lemma {:induction false} TopBeatsSum(vs: seq<real>, top: real)
    requires forall i :: 0 <= i < |vs| ==> vs[i] <= top
    ensures Sum(vs) <= Times(|vs| as real, top)
    ensures Sum(vs) == Times(|vs| as real, top) <==> AllAre(vs, top)
  {
    if vs != [] {
      var k := |vs| - 1;
      TopBeatsSum(vs[..k], top);
      assert AllAre(vs, top) <==> AllAre(vs[..k], top) && vs[k] == top;
      hide *;
      SumsUnfold(vs);
      NextProduct(k as real, top);
    }
  }

  lemma SkewForms(moment: real, sum: real, x: real, v: real)
    ensures SkewForm(moment + Times(x, v), sum + v, x + 1.0) == SkewForm(moment, sum, x) + (Times(x, v) - sum)
  {
  }

  /** Each sample adds its lead over all the earlier ones. */
  lemma SkewStep(vs: seq<real>)
    requires vs != []
    ensures var k := |vs| - 1;
            Skew(vs) == Skew(vs[..k]) + (Times(k as real, vs[k]) - Sum(vs[..k]))
  {
    var k := |vs| - 1;
    hide Sum, Moment, Times, SkewForm;
    SumsUnfold(vs);
    SkewForms(Moment(vs[..k]), Sum(vs[..k]), k as real, vs[k]);
  }

  lemma {:induction false} RisingSkew(vs: seq<real>)
    requires NonDecreasing(vs)
    ensures Skew(vs) >= 0.0
    ensures Skew(vs) == 0.0 <==> Constant(vs)
  {
    if vs != [] {
      var k := |vs| - 1;
      assert Constant(vs) <==> Constant(vs[..k]) && AllAre(vs[..k], vs[k]);
      hide Skew, Sum, Times, Constant, AllAre;
      RisingSkew(vs[..k]);
      TopBeatsSum(vs[..k], vs[k]);
      SkewStep(vs);
    }
  }

  /** A series that never falls has a slope of at least zero, and of exactly zero
      only when it never moves. */
  lemma RisingSlope(vs: seq<real>)
    requires NonDecreasing(vs)
    ensures Slope(vs) >= 0.0
    ensures Slope(vs) == 0.0 <==> Constant(vs)
  {
    if |vs| >= 2 {
      hide Skew, Slope, Constant, NonDecreasing;
      RisingSkew(vs);
      SlopeIsSkew(vs);
    }
  }

  lemma FallingSlope(vs: seq<real>)
    requires NonIncreasing(vs)
    ensures Slope(vs) <= 0.0
    ensures Slope(vs) == 0.0 <==> Constant(vs)
  {
    var up := Rescaled(vs, -1.0, 0.0);
    assert Constant(up) <==> Constant(vs);
    hide Slope, Rescaled, Constant;
    RisingSlope(up);
    SlopeRescales(vs, -1.0, 0.0);
  }
}
