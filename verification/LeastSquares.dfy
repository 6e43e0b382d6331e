/** The least-squares slope behind the backlog velocity, over the reals. */
module LeastSquares {
  import opened Wrappers
  import opened Reals

  function Sum(s: seq<real>): real {
    if s == [] then 0.0 else Sum(s[..|s| - 1]) + s[|s| - 1]
  }

  /** Sum of (x - a) * (y - b) over the paired samples. */
  function Moment(xs: seq<real>, ys: seq<real>, a: real, b: real): real
    requires |xs| == |ys|
  {
    if xs == [] then 0.0
    else
      var n := |xs| - 1;
      Moment(xs[..n], ys[..n], a, b) + Times(xs[n] - a, ys[n] - b)
  }

  function Mean(s: seq<real>): real
    requires s != []
  {
    Sum(s) / |s| as real
  }

  /** The slope of y against x, or None when it is undefined. */
  function OlsSlope(xs: seq<real>, ys: seq<real>): Option<real>
    requires |xs| == |ys|
  {
    if |xs| < 2 then None
    else
      var variance := Moment(xs, xs, Mean(xs), Mean(xs));
      if variance <= 0.0 then None else Some(Over(Moment(xs, ys, Mean(xs), Mean(ys)), variance))
  }

  // ---------------------------------------------------------------- sums of deviations

  function Spread(xs: seq<real>, a: real): real {
    if xs == [] then 0.0 else Spread(xs[..|xs| - 1], a) + (xs[|xs| - 1] - a)
  }

  lemma {:induction false} SpreadIsSum(xs: seq<real>, a: real)
    ensures Spread(xs, a) == Sum(xs) - |xs| as real * a
  {
    if xs != [] {
      SpreadIsSum(xs[..|xs| - 1], a);
    }
  }

  /** Around their mean, deviations cancel. */
  lemma SpreadAroundMean(xs: seq<real>)
    requires xs != []
    ensures Spread(xs, Mean(xs)) == 0.0
  {
    SpreadIsSum(xs, Mean(xs));
  }

  /** Where y is measured from does not matter once x is measured from its mean. */
  lemma {:induction false} MomentShift(xs: seq<real>, ys: seq<real>, a: real, b: real, c: real)
    requires |xs| == |ys|
    ensures Moment(xs, ys, a, b) == Moment(xs, ys, a, c) + Times(c - b, Spread(xs, a))
  {
    hide Times;
    Distribute(c - b, 0.0, 0.0);
    if xs != [] {
      var n := |xs| - 1;
      MomentShift(xs[..n], ys[..n], a, b, c);
      Distribute(c - b, xs[n] - a, Spread(xs[..n], a));
      Distribute(xs[n] - a, ys[n] - c, c - b);
      assert (ys[n] - c) + (c - b) == ys[n] - b;
    }
  }

  // ---------------------------------------------------------------- the slope is an average of gradients

  predicate IsIncreasing(xs: seq<real>) {
    forall i, j :: 0 <= i < |xs| && 0 <= j < |xs| && i < j ==> xs[i] < xs[j]
  }

  /** No pair of samples climbs faster than m. */
  predicate ClimbsAtMost(xs: seq<real>, ys: seq<real>, m: real)
    requires |xs| == |ys|
  {
    forall i, j :: 0 <= i < |xs| && 0 <= j < |xs| && i < j ==> ys[j] - ys[i] <= Times(m, xs[j] - xs[i])
  }

  /** Every gradient between neighbouring samples lies between lo and hi. */
  predicate GradientsBetween(xs: seq<real>, ys: seq<real>, lo: real, hi: real)
    requires |xs| == |ys|
  {
    forall k, l :: 0 <= k < |xs| && 0 <= l < |xs| && l == k + 1 ==>
      Times(lo, xs[l] - xs[k]) <= ys[l] - ys[k] <= Times(hi, xs[l] - xs[k])
  }

  /** The pairs next to each other decide. */
  lemma {:induction false} NeighboursDecide(xs: seq<real>, ys: seq<real>, m: real, i: nat, j: nat)
    requires |xs| == |ys| && i <= j < |xs|
    requires forall k, l :: 0 <= k < |xs| && 0 <= l < |xs| && l == k + 1 ==> ys[l] - ys[k] <= Times(m, xs[l] - xs[k])
    ensures ys[j] - ys[i] <= Times(m, xs[j] - xs[i])
    decreases j - i
  {
    if i < j {
      NeighboursDecide(xs, ys, m, i, j - 1);
      Distribute(m, xs[j] - xs[j - 1], xs[j - 1] - xs[i]);
      hide Times;
      assert (xs[j] - xs[j - 1]) + (xs[j - 1] - xs[i]) == xs[j] - xs[i];
    }
  }

  /** The first sample past a given x, or the last sample. */
  function Pivot(xs: seq<real>, a: real): (k: nat)
    requires xs != [] && IsIncreasing(xs)
    ensures k < |xs|
    ensures forall i :: 0 <= i < k ==> xs[i] <= a
    ensures forall i :: k < i < |xs| ==> xs[i] > a
  {
    if |xs| == 1 || xs[0] > a then 0 else Pivot(xs[1..], a) + 1
  }

  /** One term of the moment, measured against a line of slope m through (px, py). */
  function Gap(x: real, y: real, a: real, m: real, px: real, py: real): real {
    Times(x - a, y - py) - Times(m, Times(x - a, x - px))
  }

  function Gaps(xs: seq<real>, ys: seq<real>, a: real, m: real, px: real, py: real): real
    requires |xs| == |ys|
  {
    if xs == [] then 0.0
    else
      var n := |xs| - 1;
      Gaps(xs[..n], ys[..n], a, m, px, py) + Gap(xs[n], ys[n], a, m, px, py)
  }

  lemma {:induction false} GapsAreMoments(xs: seq<real>, ys: seq<real>, a: real, m: real, px: real, py: real)
    requires |xs| == |ys|
    ensures Gaps(xs, ys, a, m, px, py) == Moment(xs, ys, a, py) - Times(m, Moment(xs, xs, a, px))
  {
    if xs != [] {
      var n := |xs| - 1;
      GapsAreMoments(xs[..n], ys[..n], a, m, px, py);
      Distribute(m, Moment(xs[..n], xs[..n], a, px), Times(xs[n] - a, xs[n] - px));
      hide Times;
    }
  }

  lemma {:induction false} GapsAddUp(xs: seq<real>, ys: seq<real>, a: real, m: real, px: real, py: real)
    requires |xs| == |ys|
    requires forall i :: 0 <= i < |xs| ==> Gap(xs[i], ys[i], a, m, px, py) <= 0.0
    ensures Gaps(xs, ys, a, m, px, py) <= 0.0
  {
    hide Gap;
    if xs != [] {
      var n := |xs| - 1;
      GapsAddUp(xs[..n], ys[..n], a, m, px, py);
    }
  }

  lemma TermOnOneSide(u: real, v: real, w: real, m: real)
    requires if u <= 0.0 then v >= m * w else v <= m * w
    ensures Times(u, v) <= Times(m, Times(u, w))
  {
    var gap := v - m * w;
    assert u * gap <= 0.0;
    assert u * v == u * gap + m * (u * w);
  }

  /** Measured against the line through the pivot, every term is on one side. */
  lemma GapAtPivot(xs: seq<real>, ys: seq<real>, a: real, m: real, k: nat, i: nat)
    requires |xs| == |ys| && k < |xs| && i < |xs| && ClimbsAtMost(xs, ys, m)
    requires i < k ==> xs[i] <= a
    requires i > k ==> xs[i] > a
    ensures Gap(xs[i], ys[i], a, m, xs[k], ys[k]) <= 0.0
  {
    var u, v, w := xs[i] - a, ys[i] - ys[k], xs[i] - xs[k];
    if i < k {
      Distribute(m, w, 0.0);
      assert xs[k] - xs[i] == -w;
    } else if i == k {
      assert v == 0.0 && w == 0.0;
    }
    TermOnOneSide(u, v, w, m);
  }

  /** Chebyshev's inequality, in the form the slope needs. */
  lemma MomentAtMost(xs: seq<real>, ys: seq<real>, m: real)
    requires |xs| == |ys| && xs != [] && IsIncreasing(xs) && ClimbsAtMost(xs, ys, m)
    ensures Moment(xs, ys, Mean(xs), Mean(ys)) <= Times(m, Moment(xs, xs, Mean(xs), Mean(xs)))
  {
    var a := Mean(xs);
    var k := Pivot(xs, a);
    SpreadAroundMean(xs);
    MomentShift(xs, ys, a, Mean(ys), ys[k]);
    MomentShift(xs, xs, a, a, xs[k]);
    assert Times(ys[k] - Mean(ys), 0.0) == 0.0 && Times(xs[k] - a, 0.0) == 0.0;
    hide Times, Mean, Gap;
    GapsAreMoments(xs, ys, a, m, xs[k], ys[k]);
    forall i | 0 <= i < |xs|
      ensures Gap(xs[i], ys[i], a, m, xs[k], ys[k]) <= 0.0
    {
      GapAtPivot(xs, ys, a, m, k, i);
    }
    GapsAddUp(xs, ys, a, m, xs[k], ys[k]);
  }

  lemma SquareIsPositive(d: real)
    ensures if d == 0.0 then Times(d, d) == 0.0 else Times(d, d) > 0.0
  {
    var e := if d < 0.0 then -d else d;
    Distribute(d, d, 0.0);
    Distribute(-d, d, 0.0);
    hide Times;
    if d != 0.0 {
      ProductIsPositive(e, e);
    }
  }

  lemma {:induction false} SquaresAddUp(xs: seq<real>, a: real)
    ensures Moment(xs, xs, a, a) >= 0.0
    ensures forall i :: 0 <= i < |xs| && xs[i] != a ==> Moment(xs, xs, a, a) > 0.0
  {
    if xs != [] {
      var n := |xs| - 1;
      SquareIsPositive(xs[n] - a);
      SquaresAddUp(xs[..n], a);
      hide Times;
      assert forall i :: 0 <= i < n ==> xs[..n][i] == xs[i];
    }
  }

  /** Two different stamps are enough for the slope to be defined. */
  lemma VarianceIsPositive(xs: seq<real>, i: nat, j: nat)
    requires i < |xs| && j < |xs| && xs[i] != xs[j]
    ensures Moment(xs, xs, Mean(xs), Mean(xs)) > 0.0
  {
    SquaresAddUp(xs, Mean(xs));
  }

  function Negated(ys: seq<real>): (r: seq<real>)
    ensures |r| == |ys| && forall i :: 0 <= i < |ys| ==> r[i] == -ys[i]
  {
    seq(|ys|, i requires 0 <= i < |ys| => -ys[i])
  }

  lemma {:induction false} MomentNegated(xs: seq<real>, ys: seq<real>, a: real, b: real)
    requires |xs| == |ys|
    ensures Moment(xs, Negated(ys), a, -b) == -Moment(xs, ys, a, b)
  {
    if xs != [] {
      var n := |xs| - 1;
      MomentNegated(xs[..n], ys[..n], a, b);
      assert Negated(ys)[..n] == Negated(ys[..n]);
      Distribute(xs[n] - a, ys[n] - b, 0.0);
      hide Times;
      assert -ys[n] - (-b) == -(ys[n] - b);
    }
  }

  lemma {:induction false} SumNegated(ys: seq<real>)
    ensures Sum(Negated(ys)) == -Sum(ys)
  {
    if ys != [] {
      SumNegated(ys[..|ys| - 1]);
      assert Negated(ys)[..|ys| - 1] == Negated(ys[..|ys| - 1]);
    }
  }

  lemma MeanNegated(ys: seq<real>)
    requires ys != []
    ensures Mean(Negated(ys)) == -Mean(ys)
  {
    SumNegated(ys);
    var s, n := Sum(ys), |ys| as real;
    assert (-s) / n == -(s / n);
  }

  lemma ClimbsBetween(xs: seq<real>, ys: seq<real>, lo: real, hi: real)
    requires |xs| == |ys| && GradientsBetween(xs, ys, lo, hi)
    ensures ClimbsAtMost(xs, ys, hi)
    ensures ClimbsAtMost(xs, Negated(ys), -lo)
  {
    forall i, j | 0 <= i < |xs| && 0 <= j < |xs| && i < j
      ensures ys[j] - ys[i] <= Times(hi, xs[j] - xs[i])
      ensures Negated(ys)[j] - Negated(ys)[i] <= Times(-lo, xs[j] - xs[i])
    {
      NeighboursDecide(xs, ys, hi, i, j);
      NeighboursDecide(xs, Negated(ys), -lo, i, j);
    }
  }

  lemma SlopeBounds(xs: seq<real>, ys: seq<real>, lo: real, hi: real)
    requires |xs| == |ys| >= 2 && IsIncreasing(xs) && GradientsBetween(xs, ys, lo, hi)
    ensures OlsSlope(xs, ys).Some?
    ensures lo <= OlsSlope(xs, ys).value <= hi
  {
    var v := Moment(xs, xs, Mean(xs), Mean(xs));
    VarianceIsPositive(xs, 0, 1);
    ClimbsBetween(xs, ys, lo, hi);
    MomentAtMost(xs, ys, hi);
    MomentAtMost(xs, Negated(ys), -lo);
    MeanNegated(ys);
    MomentNegated(xs, ys, Mean(xs), Mean(ys));
    Distribute(v, lo, 0.0);
    assert Times(-lo, v) == -Times(lo, v);
    hide Times, Over, Mean, GradientsBetween, ClimbsAtMost;
    QuotientBetween(Moment(xs, ys, Mean(xs), Mean(ys)), v, lo, hi);
  }

  /** How fast y climbs from sample k to the next. */
  function Gradient(xs: seq<real>, ys: seq<real>, k: nat): real
    requires |xs| == |ys| && k + 1 < |xs| && IsIncreasing(xs)
  {
    Over(ys[k + 1] - ys[k], xs[k + 1] - xs[k])
  }

  function LeastGradient(xs: seq<real>, ys: seq<real>): (m: real)
    requires |xs| == |ys| >= 2 && IsIncreasing(xs)
    ensures forall k :: 0 <= k < |xs| - 1 ==> m <= Gradient(xs, ys, k)
    ensures exists k :: 0 <= k < |xs| - 1 && m == Gradient(xs, ys, k)
  {
    var n := |xs| - 1;
    var last := Gradient(xs, ys, n - 1);
    if n == 1 then last
    else
      var m := LeastGradient(xs[..n], ys[..n]);
      assert forall k :: 0 <= k < n - 1 ==> Gradient(xs[..n], ys[..n], k) == Gradient(xs, ys, k);
      if last < m then last else m
  }

  function GreatestGradient(xs: seq<real>, ys: seq<real>): (m: real)
    requires |xs| == |ys| >= 2 && IsIncreasing(xs)
    ensures forall k :: 0 <= k < |xs| - 1 ==> m >= Gradient(xs, ys, k)
    ensures exists k :: 0 <= k < |xs| - 1 && m == Gradient(xs, ys, k)
  {
    var n := |xs| - 1;
    var last := Gradient(xs, ys, n - 1);
    if n == 1 then last
    else
      var m := GreatestGradient(xs[..n], ys[..n]);
      assert forall k :: 0 <= k < n - 1 ==> Gradient(xs[..n], ys[..n], k) == Gradient(xs, ys, k);
      if last > m then last else m
  }

  /** Over strictly increasing stamps the slope lies between the least and the greatest gradient. */
  lemma SlopeIsBetweenGradients(xs: seq<real>, ys: seq<real>)
    requires |xs| == |ys| >= 2 && IsIncreasing(xs)
    ensures OlsSlope(xs, ys).Some?
    ensures LeastGradient(xs, ys) <= OlsSlope(xs, ys).value <= GreatestGradient(xs, ys)
  {
    hide OlsSlope, LeastGradient, GreatestGradient, Times, Over;
    var lo, hi := LeastGradient(xs, ys), GreatestGradient(xs, ys);
    forall k, l | 0 <= k < |xs| && 0 <= l < |xs| && l == k + 1
      ensures Times(lo, xs[l] - xs[k]) <= ys[l] - ys[k] <= Times(hi, xs[l] - xs[k])
    {
      assert lo <= Gradient(xs, ys, k) <= hi;
      QuotientBounds(ys[l] - ys[k], xs[l] - xs[k], lo, hi);
    }
    SlopeBounds(xs, ys, lo, hi);
  }

  /** With no two different stamps the slope is undefined; with two it is defined. */
  lemma SlopeIsDefinedExactly(xs: seq<real>, ys: seq<real>)
    requires |xs| == |ys|
    ensures OlsSlope(xs, ys).Some? <==> exists i :: 0 < i < |xs| && xs[i] != xs[0]
  {
    if i :| 0 < i < |xs| && xs[i] != xs[0] {
      VarianceIsPositive(xs, 0, i);
    } else if |xs| >= 2 {
      assert forall i :: 0 <= i < |xs| ==> xs[i] == xs[0];
      ConstantMean(xs, xs[0]);
      hide Mean;
      ConstantMoment(xs, xs[0]);
    }
  }

  lemma {:induction false} ConstantSum(xs: seq<real>, a: real)
    requires forall i :: 0 <= i < |xs| ==> xs[i] == a
    ensures Sum(xs) == |xs| as real * a
  {
    if xs != [] {
      ConstantSum(xs[..|xs| - 1], a);
    }
  }

  lemma Cancel(n: real, a: real)
    requires n != 0.0
    ensures n * a / n == a
  {
  }

  lemma ConstantMean(xs: seq<real>, a: real)
    requires xs != [] && forall i :: 0 <= i < |xs| ==> xs[i] == a
    ensures Mean(xs) == a
  {
    ConstantSum(xs, a);
    Cancel(|xs| as real, a);
  }

  lemma {:induction false} ConstantMoment(xs: seq<real>, a: real)
    requires forall i :: 0 <= i < |xs| ==> xs[i] == a
    ensures Moment(xs, xs, a, a) == 0.0
  {
    if xs != [] {
      ConstantMoment(xs[..|xs| - 1], a);
    }
  }

  // ---------------------------------------------------------------- the slope by its rises

  /** The rises of y, each weighted by how far the samples before it are past a. */
  function Drift(xs: seq<real>, ys: seq<real>, a: real): real
    requires |xs| == |ys|
  {
    if |xs| < 2 then 0.0
    else
      var n := |xs| - 1;
      Drift(xs[..n], ys[..n], a) + Times(Spread(xs[..n], a), ys[n] - ys[n - 1])
  }

  /** Abel's summation by parts. */
  lemma {:induction false} MomentIsDrift(xs: seq<real>, ys: seq<real>, a: real, b: real)
    requires |xs| == |ys| && xs != []
    ensures Moment(xs, ys, a, b) == Times(Spread(xs, a), ys[|ys| - 1] - b) - Drift(xs, ys, a)
  {
    hide Times;
    var n := |xs| - 1;
    if n > 0 {
      MomentIsDrift(xs[..n], ys[..n], a, b);
      var s, u, v := Spread(xs[..n], a), xs[n] - a, ys[n] - b;
      Distribute(v, s, u);
      Associate(u, v, 0.0);
      Associate(s + u, v, 0.0);
      Distribute(s, v, ys[n] - ys[n - 1]);
      assert v - (ys[n] - ys[n - 1]) == ys[n - 1] - b;
    } else {
      assert Moment(xs[..n], ys[..n], a, b) == 0.0 && Spread(xs[..n], a) == 0.0;
    }
  }

  lemma MomentByRises(xs: seq<real>, ys: seq<real>)
    requires |xs| == |ys| && xs != []
    ensures Moment(xs, ys, Mean(xs), Mean(ys)) == -Drift(xs, ys, Mean(xs))
  {
    hide Mean;
    SpreadAroundMean(xs);
    MomentIsDrift(xs, ys, Mean(xs), Mean(ys));
  }

  /** No first part of the window lies past a on average. */
  predicate NoPrefixIsLate(xs: seq<real>, a: real) {
    forall k :: 0 <= k <= |xs| ==> Spread(xs[..k], a) <= 0.0
  }

  lemma PrefixOfPrefix(xs: seq<real>, n: nat, a: real)
    requires n <= |xs| && NoPrefixIsLate(xs, a)
    ensures NoPrefixIsLate(xs[..n], a)
  {
    forall k | 0 <= k <= n
      ensures Spread(xs[..n][..k], a) <= 0.0
    {
      assert xs[..n][..k] == xs[..k];
    }
  }

  /** The rises of y are at most r times those of z, sample by sample. */
  predicate RisesWithin(ys: seq<real>, zs: seq<real>, r: real)
    requires |ys| == |zs|
  {
    forall k, l :: 0 <= k < |ys| && 0 <= l < |ys| && l == k + 1 ==> ys[l] - ys[k] <= Times(r, zs[l] - zs[k])
  }

  lemma WeighedRise(s: real, dy: real, r: real, dz: real)
    ensures s <= 0.0 && dy <= Times(r, dz) ==> Times(s, dy) >= Times(r, Times(s, dz))
    ensures dy == Times(r, dz) ==> Times(s, dy) == Times(r, Times(s, dz))
  {
    if s <= 0.0 && dy <= r * dz {
      assert s * (dy - r * dz) >= 0.0;
    }
  }

  lemma {:induction false} DriftWithin(xs: seq<real>, ys: seq<real>, zs: seq<real>, a: real, r: real)
    requires |xs| == |ys| == |zs| && NoPrefixIsLate(xs, a) && RisesWithin(ys, zs, r)
    ensures Drift(xs, ys, a) >= Times(r, Drift(xs, zs, a))
  {
    hide Times, Spread;
    Distribute(r, 0.0, 0.0);
    if |xs| >= 2 {
      var n := |xs| - 1;
      PrefixOfPrefix(xs, n, a);
      DriftWithin(xs[..n], ys[..n], zs[..n], a, r);
      var s := Spread(xs[..n], a);
      WeighedRise(s, ys[n] - ys[n - 1], r, zs[n] - zs[n - 1]);
      Distribute(r, Drift(xs[..n], zs[..n], a), Times(s, zs[n] - zs[n - 1]));
    }
  }

  lemma {:induction false} DriftScales(xs: seq<real>, ys: seq<real>, zs: seq<real>, a: real, r: real)
    requires |xs| == |ys| == |zs|
    requires forall k, l :: 0 <= k < |ys| && 0 <= l < |ys| && l == k + 1 ==> ys[l] - ys[k] == Times(r, zs[l] - zs[k])
    ensures Drift(xs, ys, a) == Times(r, Drift(xs, zs, a))
  {
    hide Times, Spread;
    Distribute(r, 0.0, 0.0);
    if |xs| >= 2 {
      var n := |xs| - 1;
      DriftScales(xs[..n], ys[..n], zs[..n], a, r);
      var s := Spread(xs[..n], a);
      WeighedRise(s, ys[n] - ys[n - 1], r, zs[n] - zs[n - 1]);
      Distribute(r, Drift(xs[..n], zs[..n], a), Times(s, zs[n] - zs[n - 1]));
    }
  }

  /** Points on a line have that line's slope, wherever a slope is defined. */
  lemma SlopeOfLine(xs: seq<real>, ys: seq<real>, g: real)
    requires |xs| == |ys| && OlsSlope(xs, ys).Some?
    requires forall k, l :: 0 <= k < |ys| && 0 <= l < |ys| && l == k + 1 ==> ys[l] - ys[k] == Times(g, xs[l] - xs[k])
    ensures OlsSlope(xs, ys).value == g
  {
    hide Mean, Drift, Moment;
    var v := Moment(xs, xs, Mean(xs), Mean(xs));
    MomentByRises(xs, ys);
    MomentByRises(xs, xs);
    DriftScales(xs, ys, xs, Mean(xs), g);
    Distribute(g, Drift(xs, xs, Mean(xs)), 0.0);
    assert Moment(xs, ys, Mean(xs), Mean(ys)) == Times(g, v);
    hide Times;
    OverTimes(Times(g, v), v);
    hide Over;
    CancelFactor(OlsSlope(xs, ys).value, g, v);
  }

  lemma {:induction false} DriftOfConstant(xs: seq<real>, ys: seq<real>, a: real, m: real)
    requires |xs| == |ys| && forall i :: 0 <= i < |ys| ==> ys[i] == m
    ensures Drift(xs, ys, a) == 0.0
  {
    hide Times, Spread;
    if |xs| >= 2 {
      var n := |xs| - 1;
      DriftOfConstant(xs[..n], ys[..n], a, m);
      Distribute(Spread(xs[..n], a), 0.0, 0.0);
    }
  }

  /** All of it in one fall, from m to nothing at sample k. */
  lemma {:induction false} DriftOfFall(xs: seq<real>, ys: seq<real>, a: real, k: nat, m: real)
    requires |xs| == |ys| && 0 < k < |xs| && forall i :: 0 <= i < |ys| ==> ys[i] == if i < k then m else 0.0
    ensures Drift(xs, ys, a) == -Times(Spread(xs[..k], a), m)
  {
    hide Times, Spread;
    var n := |xs| - 1;
    if k == n {
      DriftOfConstant(xs[..n], ys[..n], a, m);
      Distribute(Spread(xs[..n], a), m, 0.0);
    } else {
      DriftOfFall(xs[..n], ys[..n], a, k, m);
      assert xs[..n][..k] == xs[..k];
      Distribute(Spread(xs[..n], a), 0.0, 0.0);
    }
  }

  lemma {:induction false} SpreadOnOneSide(xs: seq<real>, a: real)
    ensures (forall i :: 0 <= i < |xs| ==> xs[i] <= a) ==> Spread(xs, a) <= 0.0
    ensures (forall i :: 0 <= i < |xs| ==> a <= xs[i]) ==> Spread(xs, a) >= 0.0
  {
    if xs != [] {
      SpreadOnOneSide(xs[..|xs| - 1], a);
    }
  }

  lemma {:induction false} SpreadInTwo(xs: seq<real>, k: nat, a: real)
    requires k <= |xs|
    ensures Spread(xs, a) == Spread(xs[..k], a) + Spread(xs[k..], a)
  {
    if k == |xs| {
      assert xs[..k] == xs;
    } else {
      var n := |xs| - 1;
      SpreadInTwo(xs[..n], k, a);
      assert xs[..n][..k] == xs[..k] && xs[k..][..n - k] == xs[..n][k..] && xs[k..][n - k] == xs[n];
    }
  }

  lemma IncreasingHasNoLatePrefix(xs: seq<real>)
    requires xs != [] && IsIncreasing(xs)
    ensures NoPrefixIsLate(xs, Mean(xs))
  {
    hide Mean, Spread;
    var a := Mean(xs);
    SpreadAroundMean(xs);
    forall k | 0 <= k <= |xs|
      ensures Spread(xs[..k], a) <= 0.0
    {
      SpreadInTwo(xs, k, a);
      SpreadOnOneSide(xs[..k], a);
      SpreadOnOneSide(xs[k..], a);
      if k < |xs| {
        assert forall i :: 0 <= i < k ==> xs[i] < xs[k];
        assert forall i :: 0 <= i < |xs| - k ==> xs[k] <= xs[k..][i];
      } else {
        assert xs[k..] == [];
      }
    }
  }

  // ---------------------------------------------------------------- why it is called least squares

  /** The squared errors of the line with slope m and intercept b, added up. */
  function Errors(xs: seq<real>, ys: seq<real>, m: real, b: real): real
    requires |xs| == |ys|
  {
    if xs == [] then 0.0
    else
      var n := |xs| - 1;
      var r := ys[n] - Times(m, xs[n]) - b;
      Errors(xs[..n], ys[..n], m, b) + Times(r, r)
  }

  lemma SquareOfSum(v: real, w: real, e: real)
    ensures Times(v - w + e, v - w + e) ==
            Times(v, v) + Times(w, w) + Times(e, e) - 2.0 * Times(w, v) + 2.0 * Times(e, v) - 2.0 * Times(e, w)
  {
  }

  lemma ErrorOfOne(x: real, y: real, m: real, b: real, a: real, c: real)
    ensures var e, u, v, r := c - Times(m, a) - b, x - a, y - c, y - Times(m, x) - b;
      Times(r, r) == Times(v, v) + Times(Times(m, m), Times(u, u)) + Times(e, e)
                     - 2.0 * Times(m, Times(u, v)) + 2.0 * Times(e, v) - 2.0 * Times(Times(e, m), u)
  {
    hide Times;
    var e, u, v, r := c - Times(m, a) - b, x - a, y - c, y - Times(m, x) - b;
    var w := Times(m, u);
    Distribute(m, x, a);
    assert r == v - w + e;
    SquareOfSum(v, w, e);
    Shuffle(m, m, u, u);
    Associate(m, u, v);
    Associate(e, m, u);
  }

  /** The total error, measured from any point (a, c). */
  lemma {:induction false} ErrorsExpand(xs: seq<real>, ys: seq<real>, m: real, b: real, a: real, c: real)
    requires |xs| == |ys|
    ensures var e := c - Times(m, a) - b;
      Errors(xs, ys, m, b) ==
      Moment(ys, ys, c, c) + Times(Times(m, m), Moment(xs, xs, a, a)) + Times(Times(e, e), |xs| as real)
      - 2.0 * Times(m, Moment(xs, ys, a, c)) + 2.0 * Times(e, Spread(ys, c)) - 2.0 * Times(Times(e, m), Spread(xs, a))
  {
    hide Times;
    var e := c - Times(m, a) - b;
    Distribute(Times(m, m), 0.0, 0.0);
    Distribute(m, 0.0, 0.0);
    Distribute(e, 0.0, 0.0);
    Distribute(Times(e, m), 0.0, 0.0);
    Distribute(Times(e, e), 0.0, 0.0);
    if xs != [] {
      var n := |xs| - 1;
      var u, v := xs[n] - a, ys[n] - c;
      ErrorsExpand(xs[..n], ys[..n], m, b, a, c);
      ErrorOfOne(xs[n], ys[n], m, b, a, c);
      Distribute(Times(m, m), Moment(xs[..n], xs[..n], a, a), Times(u, u));
      Distribute(m, Moment(xs[..n], ys[..n], a, c), Times(u, v));
      Distribute(e, Spread(ys[..n], c), v);
      Distribute(Times(e, m), Spread(xs[..n], a), u);
      Distribute(Times(e, e), n as real, 1.0);
      TimesOne(Times(e, e));
    }
  }

  /** What a slope m costs over the slope s. */
  lemma SlopeError(v: real, m: real, s: real)
    ensures Times(Times(m, m), v) - 2.0 * Times(m, Times(s, v)) - (Times(Times(s, s), v) - 2.0 * Times(s, Times(s, v))) ==
            Times(Times(m - s, m - s), v)
  {
  }

  /** No line has a smaller total error than the one through the means with this slope, and no other has as small a one. */
  lemma SlopeIsLeastSquares(xs: seq<real>, ys: seq<real>, m: real, b: real)
    requires |xs| == |ys| && OlsSlope(xs, ys).Some?
    ensures var s := OlsSlope(xs, ys).value;
      var best := Mean(ys) - Times(s, Mean(xs));
      && Errors(xs, ys, s, best) <= Errors(xs, ys, m, b)
      && (Errors(xs, ys, s, best) == Errors(xs, ys, m, b) <==> m == s && b == best)
  {
    hide Times, Over, Mean;
    var a, c, s := Mean(xs), Mean(ys), OlsSlope(xs, ys).value;
    var best := c - Times(s, a);
    var v, cov := Moment(xs, xs, a, a), Moment(xs, ys, a, c);
    OverTimes(cov, v);
    SpreadAroundMean(xs);
    SpreadAroundMean(ys);
    ErrorsExpand(xs, ys, m, b, a, c);
    ErrorsExpand(xs, ys, s, best, a, c);
    SlopeError(v, m, s);
    var e := c - Times(m, a) - b;
    Distribute(e, 0.0, 0.0);
    Distribute(Times(e, m), 0.0, 0.0);
    Distribute(0.0, 0.0, 0.0);
    Distribute(Times(0.0, s), 0.0, 0.0);
    SquareIsPositive(e);
    SquareIsPositive(m - s);
    if m != s {
      ProductIsPositive(Times(m - s, m - s), v);
    }
    Distribute(|xs| as real, 0.0, 0.0);
    Distribute(v, 0.0, 0.0);
    if e != 0.0 {
      ProductIsPositive(Times(e, e), |xs| as real);
    }
  }
}
