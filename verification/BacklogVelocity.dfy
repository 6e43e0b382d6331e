/** Velocity, projection and the recommendation's figures, from the window of samples. */
module BacklogVelocity {
  import opened Wrappers
  import opened Reals
  import opened LeastSquares

  datatype QueueMetrics = QueueMetrics(
    timestamp: real,
    callsWaiting: nat,
    longestWaitTime: real,
    slaPercentage: real,
    activeAgents: nat,
    auxAgents: nat)

  /** A sample the schema accepts. */
  type Sample = m: QueueMetrics | m.longestWaitTime >= 0.0 && 0.0 <= m.slaPercentage <= 100.0
    witness QueueMetrics(0.0, 0, 0.0, 0.0, 0, 0)

  const SLA_TRIGGER_PERCENTAGE := 50.0
  const BACKLOG_VELOCITY_TRIGGER := 15.0
  const PROJECTION_HORIZON_TICKS := 3.0
  const PROJECTION_FALLBACK_SENSITIVITY := 0.35
  const SLA_TARGET_PERCENTAGE := 80.0
  const AUX_DROP_THRESHOLD := 20.0
  const OVERTIME_DROP_THRESHOLD := 40.0
  const SEVERE_DROP_THRESHOLD := 65.0
  const AUX_FLOOR_AGENTS := 24
  const SLA_TARGET_SECONDS := 20.0
  const SLA_PENALTY_PER_CALL_USD := 50.0
  const MAX_SEVERITY_MULTIPLIER := 5.0

  function Stamps(w: seq<Sample>): (r: seq<real>)
    ensures |r| == |w| && forall i :: 0 <= i < |w| ==> r[i] == w[i].timestamp
  {
    seq(|w|, i requires 0 <= i < |w| => w[i].timestamp)
  }

  function Backlogs(w: seq<Sample>): (r: seq<real>)
    ensures |r| == |w| && forall i :: 0 <= i < |w| ==> r[i] == w[i].callsWaiting as real
  {
    seq(|w|, i requires 0 <= i < |w| => w[i].callsWaiting as real)
  }

  function Slas(w: seq<Sample>): (r: seq<real>)
    ensures |r| == |w| && forall i :: 0 <= i < |w| ==> r[i] == w[i].slaPercentage
  {
    seq(|w|, i requires 0 <= i < |w| => w[i].slaPercentage)
  }

  // ---------------------------------------------------------------- the median gap

  /** The differences of neighbours that go up. */
  function PositiveGaps(xs: seq<real>): (r: seq<real>)
    ensures forall i :: 0 <= i < |r| ==> r[i] > 0.0
  {
    var n := |xs|;
    if n < 2 then []
    else
      var gap := xs[n - 1] - xs[n - 2];
      PositiveGaps(xs[..n - 1]) + if gap > 0.0 then [gap] else []
  }

  predicate IsSorted(s: seq<real>) {
    forall i, j :: 0 <= i < |s| && 0 <= j < |s| && i <= j ==> s[i] <= s[j]
  }

  function Insert(x: real, s: seq<real>): (r: seq<real>)
    ensures |r| == |s| + 1
  {
    var n := |s|;
    if n == 0 || s[n - 1] <= x then s + [x] else Insert(x, s[..n - 1]) + [s[n - 1]]
  }

  function Sorted(s: seq<real>): (r: seq<real>)
    ensures |r| == |s|
  {
    if s == [] then [] else Insert(s[|s| - 1], Sorted(s[..|s| - 1]))
  }

  lemma {:induction false} InsertKeepsSorted(x: real, s: seq<real>)
    requires IsSorted(s)
    ensures IsSorted(Insert(x, s))
    ensures Insert(x, s)[|s|] == if s == [] || s[|s| - 1] <= x then x else s[|s| - 1]
  {
    var n := |s|;
    if n > 0 && s[n - 1] > x {
      InsertKeepsSorted(x, s[..n - 1]);
    }
  }

  lemma {:induction false} InsertKeepsElements(x: real, s: seq<real>)
    ensures multiset(Insert(x, s)) == multiset(s) + multiset{x}
  {
    var n := |s|;
    if n > 0 && s[n - 1] > x {
      assert s == s[..n - 1] + [s[n - 1]];
      InsertKeepsElements(x, s[..n - 1]);
    }
  }

  /** Sorting puts the same elements in order. */
  lemma {:induction false} SortedIsSorted(s: seq<real>)
    ensures IsSorted(Sorted(s)) && multiset(Sorted(s)) == multiset(s)
  {
    if s != [] {
      assert s == s[..|s| - 1] + [s[|s| - 1]];
      SortedIsSorted(s[..|s| - 1]);
      InsertKeepsSorted(s[|s| - 1], Sorted(s[..|s| - 1]));
      InsertKeepsElements(s[|s| - 1], Sorted(s[..|s| - 1]));
    }
  }

  /** The middle element, or the average of the two middle ones. */
  function Median(s: seq<real>): (r: real)
    requires s != []
    ensures exists x :: x in s && x <= r
    ensures exists x :: x in s && r <= x
  {
    var t, h := Sorted(s), |s| / 2;
    SortedIsSorted(s);
    SameElements(t, s, t[0]);
    SameElements(t, s, t[|t| - 1]);
    if |s| % 2 == 1 then t[h] else (t[h - 1] + t[h]) / 2.0
  }

  /** At least half the elements are at or below the median, and at least half at or above it. */
  lemma MedianIsMiddle(s: seq<real>)
    requires s != []
    ensures var t := Sorted(s);
      && IsSorted(t) && multiset(t) == multiset(s)
      && (forall i :: 0 <= i <= (|s| - 1) / 2 ==> t[i] <= Median(s))
      && (forall i :: |s| / 2 <= i < |s| ==> Median(s) <= t[i])
  {
    hide Sorted;
    SortedIsSorted(s);
    var t, h := Sorted(s), |s| / 2;
    assert Median(s) == if |s| % 2 == 1 then t[h] else (t[h - 1] + t[h]) / 2.0;
  }

  lemma SameElements(t: seq<real>, s: seq<real>, x: real)
    requires multiset(t) == multiset(s) && x in t
    ensures x in s
  {
    assert x in multiset(t);
  }

  lemma MedianIsBetween(s: seq<real>, lo: real, hi: real)
    requires s != [] && forall i :: 0 <= i < |s| ==> lo <= s[i] <= hi
    ensures lo <= Median(s) <= hi
  {
    hide Median;
  }

  function MedianGap(stamps: seq<real>): real {
    if PositiveGaps(stamps) == [] then 0.0 else Median(PositiveGaps(stamps))
  }

  lemma {:induction false} GapsOfIncreasing(xs: seq<real>, lo: real, hi: real)
    requires forall i, j :: 0 <= i < |xs| && 0 <= j < |xs| && j == i + 1 ==> 0.0 < lo <= xs[j] - xs[i] <= hi
    ensures |PositiveGaps(xs)| == if |xs| < 2 then 0 else |xs| - 1
    ensures forall k :: 0 <= k < |PositiveGaps(xs)| ==> lo <= PositiveGaps(xs)[k] <= hi
  {
    var n := |xs|;
    if n >= 2 {
      GapsOfIncreasing(xs[..n - 1], lo, hi);
      assert lo <= xs[n - 1] - xs[n - 2] <= hi;
    }
  }

  lemma IncreasingGapIsPositive(xs: seq<real>)
    requires IsIncreasing(xs) && |xs| >= 2
    ensures MedianGap(xs) > 0.0
  {
    hide Median;
    var n := |xs|;
    assert xs[n - 2] < xs[n - 1];
  }

  // ---------------------------------------------------------------- velocity

  datatype Reading = Reading(perTick: real, perSecond: real, instant: real, samples: nat, medianInterval: real)

  function Velocity(w: seq<Sample>): Reading {
    var n := |w|;
    if n < 2 then Reading(0.0, 0.0, 0.0, n, 0.0)
    else
      var stamps, backlog := Stamps(w), Backlogs(w);
      var gap := MedianGap(stamps);
      match OlsSlope(stamps, backlog)
      case None =>
        var slope := Over(backlog[n - 1] - backlog[0], (n - 1) as real);
        Reading(slope, if gap > 0.0 then Over(slope, gap) else 0.0, slope, n, gap)
      case Some(slope) =>
        var last := stamps[n - 1] - stamps[n - 2];
        var instant := if last > 0.0 && gap > 0.0 then Times(Over(backlog[n - 1] - backlog[n - 2], last), gap) else 0.0;
        Reading(Times(slope, gap), slope, instant, n, gap)
  }

  /** Which of the two conditions fired; at least one did. */
  datatype Trigger = Trigger(slaBreach: bool, backlogRace: bool)

  function TriggerOf(m: Sample, v: Reading): Option<Trigger> {
    var slaBreach := m.slaPercentage < SLA_TRIGGER_PERCENTAGE;
    var backlogRace := v.perTick > BACKLOG_VELOCITY_TRIGGER;
    if slaBreach || backlogRace then Some(Trigger(slaBreach, backlogRace)) else None
  }

  ghost predicate IsEvenlySpaced(w: seq<Sample>, d: real) {
    d > 0.0 && forall i, j :: 0 <= i < j < |w| && j == i + 1 ==> w[j].timestamp - w[i].timestamp == d
  }

  ghost predicate RisesAtMost(w: seq<Sample>, rise: int) {
    forall i, j :: 0 <= i < j < |w| && j == i + 1 ==> w[j].callsWaiting - w[i].callsWaiting <= rise
  }

  /** Every sample is later than the one before it, and finds more calls waiting. */
  ghost predicate IsRising(w: seq<Sample>) {
    && (forall i, j :: 0 <= i < j < |w| && j == i + 1 ==> w[i].timestamp < w[j].timestamp)
    && (forall i, j :: 0 <= i < j < |w| && j == i + 1 ==> w[i].callsWaiting < w[j].callsWaiting)
  }

  lemma {:induction false} NeighboursIncrease(xs: seq<real>, i: nat, j: nat)
    requires forall k, l :: 0 <= k < |xs| && 0 <= l < |xs| && l == k + 1 ==> xs[k] < xs[l]
    requires i < j < |xs|
    ensures xs[i] < xs[j]
    decreases j - i
  {
    assert xs[j - 1] < xs[j];
    if i < j - 1 {
      NeighboursIncrease(xs, i, j - 1);
    }
  }

  lemma StampsIncrease(w: seq<Sample>)
    requires forall i, j :: 0 <= i < j < |w| && j == i + 1 ==> w[i].timestamp < w[j].timestamp
    ensures IsIncreasing(Stamps(w))
  {
    var xs := Stamps(w);
    forall i, j | 0 <= i < |xs| && 0 <= j < |xs| && i < j
      ensures xs[i] < xs[j]
    {
      NeighboursIncrease(xs, i, j);
    }
  }

  lemma ScaledSlope(rise: real, d: real, slope: real, top: real)
    requires d > 0.0 && rise <= top && slope <= Over(rise, d)
    ensures Times(slope, d) <= top
  {
    assert (rise / d) * d == rise;
    assert (rise / d - slope) * d >= 0.0;
  }

  lemma EvenGap(xs: seq<real>, d: real)
    requires |xs| >= 2 && d > 0.0
    requires forall i, j :: 0 <= i < |xs| && 0 <= j < |xs| && j == i + 1 ==> xs[j] - xs[i] == d
    ensures MedianGap(xs) == d
  {
    GapsOfIncreasing(xs, d, d);
    hide PositiveGaps, Median;
    MedianIsBetween(PositiveGaps(xs), d, d);
  }

  lemma EvenSlope(xs: seq<real>, ys: seq<real>, d: real, top: real)
    requires |xs| == |ys| >= 2 && d > 0.0 && IsIncreasing(xs)
    requires forall i, j :: 0 <= i < |xs| && 0 <= j < |xs| && j == i + 1 ==> xs[j] - xs[i] == d && ys[j] - ys[i] <= top
    ensures OlsSlope(xs, ys).Some? && Times(OlsSlope(xs, ys).value, d) <= top
  {
    hide OlsSlope, GreatestGradient, LeastGradient, Times, Over;
    SlopeIsBetweenGradients(xs, ys);
    var k :| 0 <= k < |xs| - 1 && GreatestGradient(xs, ys) == Gradient(xs, ys, k);
    assert xs[k + 1] - xs[k] == d;
    ScaledSlope(ys[k + 1] - ys[k], xs[k + 1] - xs[k], OlsSlope(xs, ys).value, top);
  }

  // ---------------------------------------------------------------- when a steady rise can fire the trigger

  function Indices(n: nat): (r: seq<real>)
    ensures |r| == n && forall i :: 0 <= i < n ==> r[i] == i as real
  {
    seq(n, i requires 0 <= i < n => i as real)
  }

  /** No window with these stamps whose backlog never rises by more than 15 in a step fires the velocity trigger. */
  ghost predicate NeverRaces(xs: seq<real>) {
    forall w: seq<Sample> :: Stamps(w) == xs && RisesAtMost(w, 15) ==> Velocity(w).perTick <= BACKLOG_VELOCITY_TRIGGER
  }

  /** No first part of the window is late, and a tick gains at most one sample per median gap. */
  predicate IsTame(xs: seq<real>) {
    MedianGap(xs) > 0.0 && |xs| >= 2 ==>
      && NoPrefixIsLate(xs, Mean(xs))
      && OlsSlope(xs, Indices(|xs|)).Some?
      && Times(OlsSlope(xs, Indices(|xs|)).value, MedianGap(xs)) <= 1.0
  }

  lemma {:induction false} GapsNeedARise(xs: seq<real>)
    requires PositiveGaps(xs) != []
    ensures |xs| >= 2 && exists i :: 0 < i < |xs| && xs[i] != xs[0]
  {
    var n := |xs|;
    if PositiveGaps(xs[..n - 1]) != [] {
      GapsNeedARise(xs[..n - 1]);
      var i :| 0 < i < n - 1 && xs[..n - 1][i] != xs[..n - 1][0];
      assert xs[i] != xs[0];
    } else {
      assert xs[n - 1] != xs[0] || xs[n - 2] != xs[0];
    }
  }

  /** The median gap is zero exactly when no sample is later than the one before it. */
  lemma MedianGapIsNotNegative(xs: seq<real>)
    ensures MedianGap(xs) >= 0.0
    ensures MedianGap(xs) == 0.0 <==> PositiveGaps(xs) == []
  {
    hide PositiveGaps;
  }

  lemma {:induction false} TotalRise(w: seq<Sample>, rise: nat, k: nat)
    requires RisesAtMost(w, rise) && k < |w|
    ensures w[k].callsWaiting - w[0].callsWaiting <= rise * k
  {
    if k > 0 {
      TotalRise(w, rise, k - 1);
    }
  }

  /** With the stamps all alike, velocity is the rise per sample. */
  lemma StillWindowCannotRace(w: seq<Sample>)
    requires |w| >= 2 && OlsSlope(Stamps(w), Backlogs(w)).None? && RisesAtMost(w, 15)
    ensures Velocity(w).perTick <= BACKLOG_VELOCITY_TRIGGER
  {
    var n := |w| - 1;
    TotalRise(w, 15, n);
    var rise := Backlogs(w)[n] - Backlogs(w)[0];
    OverTimes(rise, n as real);
    hide OlsSlope, MedianGap, Over, Times;
    QuotientAtMost(rise, n as real, 15.0);
  }

  lemma QuotientAtMost(x: real, n: real, r: real)
    requires n > 0.0 && x <= r * n
    ensures Over(x, n) <= r
  {
    OverTimes(x, n);
    assert Over(x, n) > r ==> Times(Over(x, n) - r, n) > 0.0;
  }

  /** The slope is the drift over the variance, which is positive as soon as there is a gap. */
  lemma SlopeByRises(xs: seq<real>, ys: seq<real>)
    requires |xs| == |ys| && MedianGap(xs) > 0.0
    ensures |xs| >= 2 && OlsSlope(xs, ys).Some?
    ensures Moment(xs, xs, Mean(xs), Mean(xs)) > 0.0
    ensures OlsSlope(xs, ys).value == Over(-Drift(xs, ys, Mean(xs)), Moment(xs, xs, Mean(xs), Mean(xs)))
  {
    hide PositiveGaps, Mean, Over, Times;
    GapsNeedARise(xs);
    var i :| 0 < i < |xs| && xs[i] != xs[0];
    VarianceIsPositive(xs, 0, i);
    MomentByRises(xs, ys);
  }

  lemma TameCannotRace(w: seq<Sample>)
    requires IsTame(Stamps(w)) && RisesAtMost(w, 15)
    ensures Velocity(w).perTick <= BACKLOG_VELOCITY_TRIGGER
  {
    hide OlsSlope, MedianGap, NoPrefixIsLate, Mean, Times, Over, IsTame;
    var xs, ys := Stamps(w), Backlogs(w);
    var gap := MedianGap(xs);
    MedianGapIsNotNegative(xs);
    if |w| < 2 {
    } else if OlsSlope(xs, ys).None? {
      StillWindowCannotRace(w);
    } else if gap == 0.0 {
      Distribute(OlsSlope(xs, ys).value, 0.0, 0.0);
    } else {
      SteadySlope(xs, ys);
    }
  }

  lemma SteadySlope(xs: seq<real>, ys: seq<real>)
    requires |xs| == |ys| && IsTame(xs) && MedianGap(xs) > 0.0
    requires forall k, l :: 0 <= k < |ys| && 0 <= l < |ys| && l == k + 1 ==> ys[l] - ys[k] <= 15.0
    ensures OlsSlope(xs, ys).Some? && Times(OlsSlope(xs, ys).value, MedianGap(xs)) <= 15.0
  {
    hide OlsSlope, MedianGap, NoPrefixIsLate, Mean, Over, Drift;
    var zs := Indices(|xs|);
    assert RisesWithin(ys, zs, 15.0);
    SlopeByRises(xs, ys);
    SlopeByRises(xs, zs);
    hide Times;
    DriftWithin(xs, ys, zs, Mean(xs), 15.0);
    Distribute(15.0, Drift(xs, zs, Mean(xs)), 0.0);
    ScaledAtMost(-Drift(xs, ys, Mean(xs)), -Drift(xs, zs, Mean(xs)), 15.0, Moment(xs, xs, Mean(xs), Mean(xs)),
                 MedianGap(xs));
  }

  /** A window with the given stamps and backlogs. */
  function Window(xs: seq<real>, ns: seq<nat>): (w: seq<Sample>)
    requires |xs| == |ns|
    ensures Stamps(w) == xs && |w| == |xs|
    ensures forall i :: 0 <= i < |w| ==> w[i].callsWaiting == ns[i]
  {
    var w: seq<Sample> := seq(|xs|, i requires 0 <= i < |xs| => QueueMetrics(xs[i], ns[i], 0.0, 100.0, 0, 0));
    assert Stamps(w) == xs;
    w
  }

  /** Fifteen more calls with every sample. */
  function Ramp(n: nat): (r: seq<nat>)
    ensures |r| == n && forall i :: 0 <= i < n ==> r[i] == 15 * i
  {
    seq(n, i requires 0 <= i < n => 15 * i)
  }

  /** A long queue that is gone at sample k. */
  function Fall(n: nat, k: nat, m: nat): (r: seq<nat>)
    ensures |r| == n && forall i :: 0 <= i < n ==> r[i] == if i < k then m else 0
  {
    seq(n, i requires 0 <= i < n => if i < k then m else 0)
  }

  lemma RampRaces(xs: seq<real>)
    requires MedianGap(xs) > 0.0
    requires OlsSlope(xs, Indices(|xs|)).Some? && Times(OlsSlope(xs, Indices(|xs|)).value, MedianGap(xs)) > 1.0
    ensures Velocity(Window(xs, Ramp(|xs|))).perTick > BACKLOG_VELOCITY_TRIGGER
  {
    hide OlsSlope, MedianGap, Mean, Over, Drift, Moment;
    var w, zs := Window(xs, Ramp(|xs|)), Indices(|xs|);
    var ys := Backlogs(w);
    assert forall k, l :: 0 <= k < |ys| && 0 <= l < |ys| && l == k + 1 ==> ys[l] - ys[k] == Times(15.0, zs[l] - zs[k]);
    SlopeByRises(xs, ys);
    SlopeByRises(xs, zs);
    hide Times;
    var d := -Drift(xs, zs, Mean(xs));
    DriftScales(xs, ys, zs, Mean(xs), 15.0);
    Distribute(15.0, Drift(xs, zs, Mean(xs)), 0.0);
    ScaledExactly(d, 15.0, Moment(xs, xs, Mean(xs), Mean(xs)), MedianGap(xs));
    FifteenTimes(Times(OlsSlope(xs, zs).value, MedianGap(xs)));
  }

  lemma FifteenTimes(x: real)
    ensures Times(15.0, x) > 15.0 <==> x > 1.0
  {
  }

  lemma FallRaces(xs: seq<real>, k: nat)
    requires MedianGap(xs) > 0.0 && 2 <= |xs| && k <= |xs| && Spread(xs[..k], Mean(xs)) > 0.0
    ensures exists m: nat :: Velocity(Window(xs, Fall(|xs|, k, m))).perTick > BACKLOG_VELOCITY_TRIGGER
  {
    hide OlsSlope, MedianGap, Mean, Over, Drift, Moment, Times;
    var a := Mean(xs);
    SpreadAroundMean(xs);
    assert xs[..|xs|] == xs;
    assert 0 < k < |xs|;
    SlopeByRises(xs, Indices(|xs|));
    var m := Enough(Spread(xs[..k], a), Moment(xs, xs, a, a), MedianGap(xs), 15.0);
    hide Spread;
    var w := Window(xs, Fall(|xs|, k, m));
    DriftOfFall(xs, Backlogs(w), a, k, m as real);
    SlopeByRises(xs, Backlogs(w));
    assert Velocity(w).perTick > BACKLOG_VELOCITY_TRIGGER;
  }

  /**
    * Which clocks keep a backlog that rises by at most 15 in a step from firing the trigger: exactly those on which
    * the sample numbers themselves rise by at most one per median gap, and no first part of the window is later on
    * average than the whole.
    */
  lemma RacesExactlyUnlessTame(xs: seq<real>)
    ensures NeverRaces(xs) <==> IsTame(xs)
  {
    hide Velocity, IsTame, MedianGap, NoPrefixIsLate;
    if IsTame(xs) {
      forall w: seq<Sample> | Stamps(w) == xs && RisesAtMost(w, 15)
        ensures Velocity(w).perTick <= BACKLOG_VELOCITY_TRIGGER
      {
        TameCannotRace(w);
      }
    } else {
      UntameRaces(xs);
    }
  }

  lemma UntameRaces(xs: seq<real>)
    requires !IsTame(xs)
    ensures exists w: seq<Sample> ::
      Stamps(w) == xs && RisesAtMost(w, 15) && Velocity(w).perTick > BACKLOG_VELOCITY_TRIGGER
  {
    hide Velocity, MedianGap, OlsSlope;
    SlopeByRises(xs, Indices(|xs|));
    if NoPrefixIsLate(xs, Mean(xs)) {
      RampRaces(xs);
      assert RisesAtMost(Window(xs, Ramp(|xs|)), 15);
    } else {
      var k :| 0 <= k <= |xs| && Spread(xs[..k], Mean(xs)) > 0.0;
      FallRaces(xs, k);
      var m: nat :| Velocity(Window(xs, Fall(|xs|, k, m))).perTick > BACKLOG_VELOCITY_TRIGGER;
      assert RisesAtMost(Window(xs, Fall(|xs|, k, m)), 15);
    }
  }

  /** Where the clock only goes forward, the slope of the sample numbers decides alone. */
  lemma ForwardClockRacesExactly(xs: seq<real>)
    requires |xs| >= 2 && IsIncreasing(xs)
    ensures OlsSlope(xs, Indices(|xs|)).Some?
    ensures NeverRaces(xs) <==> Times(OlsSlope(xs, Indices(|xs|)).value, MedianGap(xs)) <= 1.0
  {
    IncreasingGapIsPositive(xs);
    IncreasingHasNoLatePrefix(xs);
    RacesExactlyUnlessTame(xs);
    hide NeverRaces, NoPrefixIsLate, MedianGap, OlsSlope;
    SlopeByRises(xs, Indices(|xs|));
  }

  /** On an even clock it cannot fire. */
  lemma EvenWindowCannotRace(w: seq<Sample>, d: real, m: Sample)
    requires IsEvenlySpaced(w, d) && RisesAtMost(w, 15)
    ensures Velocity(w).perTick <= BACKLOG_VELOCITY_TRIGGER
    ensures TriggerOf(m, Velocity(w)).Some? <==> m.slaPercentage < SLA_TRIGGER_PERCENTAGE
  {
    hide OlsSlope, MedianGap, Times, Over, IsIncreasing;
    if |w| >= 2 {
      var xs := Stamps(w);
      StampsIncrease(w);
      EvenGap(xs, d);
      EvenSlope(xs, Indices(|xs|), d, 1.0);
      ForwardClockRacesExactly(xs);
      assert NeverRaces(xs);
    }
  }

  /** On this one it can: the median gap is not the gap its backlog rises over. */
  lemma UnevenWindowCanRace()
    ensures exists w: seq<Sample> ::
      Stamps(w) == [0.0, 10.0, 11.0, 21.0] && RisesAtMost(w, 15) && Velocity(w).perTick > BACKLOG_VELOCITY_TRIGGER
  {
    hide Velocity, MedianGap, OlsSlope, Stamps;
    var xs := [0.0, 10.0, 11.0, 21.0];
    UnevenGaps();
    UnevenSlope();
    assert Indices(4) == [0.0, 1.0, 2.0, 3.0];
    ForwardClockRacesExactly(xs);
  }

  lemma UnevenGaps()
    ensures MedianGap([0.0, 10.0, 11.0, 21.0]) == 10.0
  {
    var xs := [0.0, 10.0, 11.0, 21.0];
    assert xs[..3] == [0.0, 10.0, 11.0];
    assert [0.0, 10.0, 11.0][..2] == [0.0, 10.0];
    assert [0.0, 10.0][..1] == [0.0];
    assert PositiveGaps([0.0, 10.0]) == [10.0];
    assert PositiveGaps([0.0, 10.0, 11.0]) == [10.0, 1.0];
    assert PositiveGaps(xs) == [10.0, 1.0, 10.0];
    hide PositiveGaps;
    UnevenSort();
  }

  lemma UnevenSort()
    ensures Sorted([10.0, 1.0, 10.0]) == [1.0, 10.0, 10.0]
  {
    assert [10.0, 1.0, 10.0][..2] == [10.0, 1.0] && [10.0, 1.0][..1] == [10.0];
    assert [10.0][..0] == [];
    assert Insert(10.0, []) == [10.0];
    assert Sorted([10.0]) == [10.0];
    assert Insert(1.0, []) == [1.0];
    assert Insert(1.0, [10.0]) == [1.0, 10.0];
    assert Sorted([10.0, 1.0]) == [1.0, 10.0];
  }

  lemma UnevenSlope()
    ensures OlsSlope([0.0, 10.0, 11.0, 21.0], [0.0, 1.0, 2.0, 3.0]) == Some(32.0 / 221.0)
  {
    var xs, ys := [0.0, 10.0, 11.0, 21.0], [0.0, 1.0, 2.0, 3.0];
    assert xs[..3] == [0.0, 10.0, 11.0];
    assert [0.0, 10.0, 11.0][..2] == [0.0, 10.0];
    assert [0.0, 10.0][..1] == [0.0];
    assert ys[..3] == [0.0, 1.0, 2.0];
    assert [0.0, 1.0, 2.0][..2] == [0.0, 1.0];
    assert [0.0, 1.0][..1] == [0.0];
    assert Sum([0.0]) == 0.0 && Sum([0.0, 10.0]) == 10.0 && Sum([0.0, 10.0, 11.0]) == 21.0 && Sum(xs) == 42.0;
    assert Sum([0.0, 1.0]) == 1.0 && Sum([0.0, 1.0, 2.0]) == 3.0 && Sum(ys) == 6.0;
    assert Mean(xs) == 10.5 && Mean(ys) == 1.5;
    assert Moment([0.0], [0.0], 10.5, 10.5) == 110.25;
    assert Moment([0.0, 10.0], [0.0, 10.0], 10.5, 10.5) == 110.5;
    assert Moment([0.0, 10.0, 11.0], [0.0, 10.0, 11.0], 10.5, 10.5) == 110.75;
    assert Moment(xs, xs, 10.5, 10.5) == 221.0;
    assert Moment([0.0], [0.0], 10.5, 1.5) == 15.75;
    assert Moment([0.0, 10.0], [0.0, 1.0], 10.5, 1.5) == 16.0;
    assert Moment([0.0, 10.0, 11.0], [0.0, 1.0, 2.0], 10.5, 1.5) == 16.25;
    assert Moment(xs, ys, 10.5, 1.5) == 32.0;
  }

  /** On an even clock, a backlog that rises by the same number at every tick has that velocity per tick. */
  lemma SteadyRiseIsVelocity(w: seq<Sample>, d: real, r: int)
    requires |w| >= 2 && IsEvenlySpaced(w, d)
    requires forall i, j :: 0 <= i < j < |w| && j == i + 1 ==> w[j].callsWaiting - w[i].callsWaiting == r
    ensures var v := Velocity(w);
      v.perTick == r as real && Times(v.perSecond, d) == r as real && v.instant == r as real && v.medianInterval == d
  {
    hide OlsSlope, MedianGap, Times, Over;
    var xs, ys := Stamps(w), Backlogs(w);
    EvenGap(xs, d);
    SteadySlopeIsExact(xs, ys, d, r as real);
    OverTimes(r as real, d);
  }

  lemma SteadySlopeIsExact(xs: seq<real>, ys: seq<real>, d: real, r: real)
    requires |xs| == |ys| >= 2 && d > 0.0 && MedianGap(xs) == d
    requires forall i, j :: 0 <= i < |xs| && 0 <= j < |xs| && j == i + 1 ==> xs[j] - xs[i] == d && ys[j] - ys[i] == r
    ensures OlsSlope(xs, ys) == Some(Over(r, d))
  {
    hide OlsSlope, MedianGap, Times, Mean, Moment, Drift;
    SlopeByRises(xs, ys);
    OverTimes(r, d);
    SlopeOfLine(xs, ys, Over(r, d));
  }

  // ---------------------------------------------------------------- projection

  datatype Projection = Projection(sla: real, drop: real)

  /** How many points of SLA one more waiting call costs. */
  function Sensitivity(w: seq<Sample>, v: Reading): real {
    match OlsSlope(Backlogs(w), Slas(w))
    case Some(g) =>
      if g < 0.0 then g else if v.perTick > 0.0 then -PROJECTION_FALLBACK_SENSITIVITY else 0.0
    case None => if v.perTick > 0.0 then -PROJECTION_FALLBACK_SENSITIVITY else 0.0
  }

  function Project(w: seq<Sample>, v: Reading, m: Sample): Projection {
    var delta := v.perTick * PROJECTION_HORIZON_TICKS;
    var projected := Clamp(m.slaPercentage + Sensitivity(w, v) * delta, 0.0, 100.0);
    Projection(projected, Clamp(m.slaPercentage - projected, 0.0, 100.0))
  }

  lemma RisingSlope(xs: seq<real>, ys: seq<real>)
    requires |xs| == |ys| >= 2 && IsIncreasing(xs)
    requires forall i, j :: 0 <= i < |xs| && 0 <= j < |xs| && j == i + 1 ==> ys[i] < ys[j]
    ensures OlsSlope(xs, ys).Some? && OlsSlope(xs, ys).value > 0.0
  {
    hide OlsSlope, GreatestGradient, LeastGradient, Over;
    SlopeIsBetweenGradients(xs, ys);
    var k :| 0 <= k < |xs| - 1 && LeastGradient(xs, ys) == Gradient(xs, ys, k);
    assert ys[k] < ys[k + 1] && xs[k] < xs[k + 1];
    QuotientIsPositive(ys[k + 1] - ys[k], xs[k + 1] - xs[k]);
  }

  /** A backlog that grows at every step has positive velocity. */
  lemma RisingWindowMovesUp(w: seq<Sample>)
    requires |w| >= 2 && IsRising(w)
    ensures Velocity(w).perTick > 0.0
  {
    hide OlsSlope, MedianGap, Times, Over;
    var xs, ys := Stamps(w), Backlogs(w);
    StampsIncrease(w);
    IncreasingGapIsPositive(xs);
    RisingSlope(xs, ys);
    ProductIsPositive(OlsSlope(xs, ys).value, MedianGap(xs));
    hide IsIncreasing;
  }

  /** The projection stays a percentage, the drop is exactly what is lost, and growth always projects a loss. */
  lemma ProjectionIsSound(w: seq<Sample>, v: Reading, m: Sample)
    ensures var p := Project(w, v, m);
      && 0.0 <= p.sla <= 100.0
      && 0.0 <= p.drop <= m.slaPercentage
      && p.drop == (if p.sla < m.slaPercentage then m.slaPercentage - p.sla else 0.0)
      && (v.perTick > 0.0 && m.slaPercentage > 0.0 ==> p.drop > 0.0)
      && (v.perTick <= 0.0 ==> p.drop == 0.0)
  {
    var s := Sensitivity(w, v);
    var delta := v.perTick * PROJECTION_HORIZON_TICKS;
    ShrinkageSign(s, delta);
  }

  /** Where the service level fell on a line of slope g below the backlog, the projection runs on along that line. */
  lemma FallingLineIsExtrapolated(w: seq<Sample>, v: Reading, m: Sample, g: real)
    requires g < 0.0 && OlsSlope(Backlogs(w), Slas(w)).Some?
    requires forall i, j :: 0 <= i < j < |w| && j == i + 1 ==>
      w[j].slaPercentage - w[i].slaPercentage == Times(g, w[j].callsWaiting as real - w[i].callsWaiting as real)
    ensures var ahead := m.slaPercentage + Times(g, 3.0 * v.perTick);
      Project(w, v, m).sla == if ahead < 0.0 then 0.0 else if ahead > 100.0 then 100.0 else ahead
  {
    hide OlsSlope;
    assert forall k, l :: 0 <= k < |w| && 0 <= l < |w| && l == k + 1 ==>
      Slas(w)[l] - Slas(w)[k] == Times(g, Backlogs(w)[l] - Backlogs(w)[k]);
    SlopeOfLine(Backlogs(w), Slas(w), g);
  }

  /** Where it did not fall with the backlog, a growing backlog costs 0.35 points a call, and any other nothing. */
  lemma FallbackIsProjected(w: seq<Sample>, v: Reading, m: Sample)
    requires var g := OlsSlope(Backlogs(w), Slas(w)); g.None? || g.value >= 0.0
    ensures var ahead := m.slaPercentage - if v.perTick > 0.0 then 1.05 * v.perTick else 0.0;
      Project(w, v, m).sla == if ahead < 0.0 then 0.0 else ahead
  {
    hide OlsSlope;
  }

  lemma ShrinkageSign(s: real, delta: real)
    requires s <= 0.0
    ensures delta <= 0.0 ==> s * delta >= 0.0
    ensures delta > 0.0 && s < 0.0 ==> s * delta < 0.0
  {
  }

  lemma RisingWindowProjectsLoss(w: seq<Sample>, m: Sample)
    requires |w| >= 2 && IsRising(w) && m.slaPercentage > 0.0
    ensures Project(w, Velocity(w), m).drop > 0.0
  {
    RisingWindowMovesUp(w);
    ProjectionIsSound(w, Velocity(w), m);
  }

  // ---------------------------------------------------------------- the recommendation's figures

  datatype ProposedAction = RebalancingSkills | PullAuxToCalls | OpenVoluntaryOvertime | RerouteLowPriorityQueues

  function Damage(m: Sample, drop: real): real {
    var deficit := SLA_TARGET_PERCENTAGE - m.slaPercentage;
    Clamp((if deficit > 0.0 then deficit else 0.0) + drop, 0.0, 100.0)
  }

  function SelectAction(damage: real, m: Sample): ProposedAction {
    if damage >= SEVERE_DROP_THRESHOLD then RerouteLowPriorityQueues
    else if damage >= OVERTIME_DROP_THRESHOLD then OpenVoluntaryOvertime
    else if damage >= AUX_DROP_THRESHOLD && m.auxAgents > AUX_FLOOR_AGENTS then PullAuxToCalls
    else RebalancingSkills
  }

  /** How costly a lever is. */
  function Rung(a: ProposedAction): nat {
    match a
    case RebalancingSkills => 0
    case PullAuxToCalls => 1
    case OpenVoluntaryOvertime => 2
    case RerouteLowPriorityQueues => 3
  }

  /** Losing more of the SLA never recommends a cheaper lever. */
  lemma MoreLossNeverRecommendsLess(m: Sample, drop: real, more: real)
    requires drop <= more
    ensures Rung(SelectAction(Damage(m, drop), m)) <= Rung(SelectAction(Damage(m, more), m))
  {
  }

  /** Which lever, by the points missing to the target of 80 now and the points about to be lost. */
  lemma LeverIsByDamage(m: Sample, drop: real)
    ensures var missing := (if m.slaPercentage < 80.0 then 80.0 - m.slaPercentage else 0.0) + drop;
      var lever := SelectAction(Damage(m, drop), m);
      && (lever == RerouteLowPriorityQueues <==> missing >= 65.0)
      && (lever == OpenVoluntaryOvertime <==> 40.0 <= missing < 65.0)
      && (lever == PullAuxToCalls <==> 20.0 <= missing < 40.0 && m.auxAgents > 24)
      && (lever == RebalancingSkills <==> missing < 20.0 || (missing < 40.0 && m.auxAgents <= 24))
  {
  }

  function FinancialExposure(m: Sample, projectedSla: real): real {
    var breaching := Times(m.callsWaiting as real, 1.0 - projectedSla / 100.0);
    var severity := Clamp(m.longestWaitTime / SLA_TARGET_SECONDS, 1.0, MAX_SEVERITY_MULTIPLIER);
    Round2(Times(breaching * SLA_PENALTY_PER_CALL_USD, severity))
  }

  lemma ExposureIsNotNegative(m: Sample, projectedSla: real)
    requires 0.0 <= projectedSla <= 100.0
    ensures FinancialExposure(m, projectedSla) >= 0.0
  {
    var breaching := Times(m.callsWaiting as real, 1.0 - projectedSla / 100.0);
    var severity := Clamp(m.longestWaitTime / SLA_TARGET_SECONDS, 1.0, MAX_SEVERITY_MULTIPLIER);
    ProductIsNotNegative(m.callsWaiting as real, 1.0 - projectedSla / 100.0);
    ProductIsNotNegative(breaching * SLA_PENALTY_PER_CALL_USD, severity);
    hide Round2, Times;
    Round2KeepsRange(Times(breaching * SLA_PENALTY_PER_CALL_USD, severity), 0);
  }

  /**
    * The exposure, to the cent: 50 for every waiting call about to breach, weighed by how many times the target of
    * 20 seconds the longest has waited, between once and five times.
    */
  lemma ExposureIsExact(m: Sample, projectedSla: real)
    ensures var breaching := Times(m.callsWaiting as real, 1.0 - projectedSla / 100.0);
      var times := if m.longestWaitTime <= 20.0 then 1.0 else if m.longestWaitTime >= 100.0 then 5.0
                   else m.longestWaitTime / 20.0;
      var exact := Times(50.0 * breaching, times);
      -0.005 <= FinancialExposure(m, projectedSla) - exact <= 0.005
  {
    hide Times;
    var breaching := Times(m.callsWaiting as real, 1.0 - projectedSla / 100.0);
    var severity := Clamp(m.longestWaitTime / SLA_TARGET_SECONDS, 1.0, MAX_SEVERITY_MULTIPLIER);
    Round2IsNear(Times(breaching * SLA_PENALTY_PER_CALL_USD, severity));
    hide Round2;
  }

  /** More calls waiting, or a lower projected level, never expose to less. */
  lemma ExposureGrows(m: Sample, worse: Sample, sla: real, lower: real)
    requires 0.0 <= lower <= sla <= 100.0
    requires m.callsWaiting <= worse.callsWaiting && m.longestWaitTime <= worse.longestWaitTime
    ensures FinancialExposure(m, sla) <= FinancialExposure(worse, lower)
  {
    hide Times;
    var a, b := Times(m.callsWaiting as real, 1.0 - sla / 100.0), Times(worse.callsWaiting as real, 1.0 - lower / 100.0);
    var s := Clamp(m.longestWaitTime / SLA_TARGET_SECONDS, 1.0, MAX_SEVERITY_MULTIPLIER);
    var t := Clamp(worse.longestWaitTime / SLA_TARGET_SECONDS, 1.0, MAX_SEVERITY_MULTIPLIER);
    ProductIsNotNegative(m.callsWaiting as real, 1.0 - sla / 100.0);
    ProductGrows(m.callsWaiting as real, 1.0 - sla / 100.0, worse.callsWaiting as real, 1.0 - lower / 100.0);
    ProductGrows(a * SLA_PENALTY_PER_CALL_USD, s, b * SLA_PENALTY_PER_CALL_USD, t);
    RoundingKeepsOrder(Times(a * SLA_PENALTY_PER_CALL_USD, s) * 100.0, Times(b * SLA_PENALTY_PER_CALL_USD, t) * 100.0);
    hide RoundHalfEven;
  }
}
