/** The simulated contact centre: its fluid backlog, its volume spike, its staffing, and the samples it emits. */
module Telemetry {
  import opened Reals
  import ErlangC

  const CENTER_HEADCOUNT: int := 500
  const BASE_AUX_AGENTS := 72.0
  const AUX_FLOOR_AGENTS := 24.0
  const BASE_ARRIVALS_PER_INTERVAL := 413.5
  const SIM_INTERVAL_SECONDS := 300.0
  const AVG_HANDLE_TIME_SECONDS := 300.0
  const ABANDONMENT_PATIENCE_SECONDS := 900.0
  const SLA_TARGET_SECONDS := 20.0
  const MAX_FLOOR_UTILISATION := 0.99
  const MAX_QUEUE_LENGTH := 2500.0
  const MAX_LONGEST_WAIT_SECONDS := 1800.0
  const SPIKE_DURATION_TICKS: nat := 10
  const SPIKE_RECOVERY_TICKS: nat := 4
  const SPIKE_PEAK_MULTIPLIER := 1.8
  const SPIKE_INITIAL_SHOCK := 0.10
  const SPIKE_CURVE_GAMMA := 2.2
  const SPIKE_RECOVERY_DECAY := 0.9

  /** The exponential and the logarithm, known only by sign and order. */
  datatype Maths = Maths(exp: real -> real, log: real -> real)

  ghost predicate IsSound(m: Maths) {
    && m.exp(0.0) == 1.0
    && (forall x :: m.exp(x) > 0.0)
    && (forall x, y :: x < y ==> m.exp(x) < m.exp(y))
    && (forall x :: x >= 1.0 ==> m.log(x) >= 0.0)
  }

  // ---------------------------------------------------------------- the backlog

  datatype Queue = Queue(backlog: real, floor: real)

  /** One interval: the load offered, the agents taking calls, and the jitter drawn. */
  datatype Interval = Interval(load: real, staffed: nat, jitter: real)

  predicate IsBounded(q: Queue) {
    0.0 <= q.backlog <= MAX_QUEUE_LENGTH && q.floor >= 0.0
  }

  function Survival(m: Maths): real {
    m.exp(-SIM_INTERVAL_SECONDS / ABANDONMENT_PATIENCE_SECONDS)
  }

  function Least(x: real, y: real): real {
    if y < x then y else x
  }

  function Greatest(x: real, y: real): real {
    if y > x then y else x
  }

  /** The backlog a stable queue keeps on average. */
  function Equilibrium(m: Maths, i: Interval): real
    requires i.staffed >= 1
  {
    var u := Least(Over(i.load, i.staffed as real), MAX_FLOOR_UTILISATION);
    Times(Over(Times(ErlangC.WaitProbability(i.load, i.staffed), u), 1.0 - u), m.exp(i.jitter))
  }

  /** The floor is only redrawn while the queue is stable. */
  function FloorAfter(m: Maths, q: Queue, i: Interval): real
    requires i.staffed >= 1
  {
    if i.load < i.staffed as real then Equilibrium(m, i) else q.floor
  }

  function NetVolume(i: Interval): real {
    (i.load - i.staffed as real) * SIM_INTERVAL_SECONDS / AVG_HANDLE_TIME_SECONDS
  }

  function Flow(m: Maths, q: Queue, i: Interval): Queue
    requires i.staffed >= 1
  {
    var floor := FloorAfter(m, q, i);
    Queue(Least(Greatest(Times(q.backlog + NetVolume(i), Survival(m)), floor), MAX_QUEUE_LENGTH), floor)
  }

  predicate AreStaffed(s: seq<Interval>) {
    forall k :: 0 <= k < |s| ==> s[k].staffed >= 1 && s[k].load >= 0.0
  }

  function FlowAll(m: Maths, q: Queue, s: seq<Interval>): Queue
    requires AreStaffed(s)
  {
    if s == [] then q else Flow(m, FlowAll(m, q, s[..|s| - 1]), s[|s| - 1])
  }

  lemma EquilibriumIsNotNegative(m: Maths, i: Interval)
    requires IsSound(m) && i.staffed >= 1 && i.load >= 0.0
    ensures Equilibrium(m, i) >= 0.0
  {
    hide Times, Over;
    var p := ErlangC.WaitProbability(i.load, i.staffed);
    ErlangC.WaitProbabilityIsProbability(i.load, i.staffed);
    QuotientIsNotNegative(i.load, i.staffed as real);
    var u := Least(Over(i.load, i.staffed as real), MAX_FLOOR_UTILISATION);
    ProductIsNotNegative(p, u);
    QuotientIsNotNegative(Times(p, u), 1.0 - u);
    ProductIsNotNegative(Over(Times(p, u), 1.0 - u), m.exp(i.jitter));
  }

  lemma SurvivalIsPartial(m: Maths)
    requires IsSound(m)
    ensures 0.0 < Survival(m) < 1.0
  {
    assert m.exp(-SIM_INTERVAL_SECONDS / ABANDONMENT_PATIENCE_SECONDS) < m.exp(0.0);
  }

  lemma FlowStaysBounded(m: Maths, q: Queue, i: Interval)
    requires IsSound(m) && IsBounded(q) && i.staffed >= 1 && i.load >= 0.0
    ensures IsBounded(Flow(m, q, i))
  {
    EquilibriumIsNotNegative(m, i);
    hide Equilibrium, Times, Survival;
  }

  /** Whatever is offered and however it is staffed, the backlog stays between 0 and 2500. */
  lemma {:induction false} BacklogIsBounded(m: Maths, q: Queue, s: seq<Interval>)
    requires IsSound(m) && IsBounded(q) && AreStaffed(s)
    ensures IsBounded(FlowAll(m, q, s))
  {
    if s != [] {
      BacklogIsBounded(m, q, s[..|s| - 1]);
      FlowStaysBounded(m, FlowAll(m, q, s[..|s| - 1]), s[|s| - 1]);
      hide IsSound, IsBounded, Flow;
    }
  }

  predicate IsAtFloor(q: Queue) {
    q.backlog == Least(q.floor, MAX_QUEUE_LENGTH)
  }

  /** Capacity exceeds the load by at least d throughout. */
  predicate Drains(s: seq<Interval>, d: real) {
    forall k :: 0 <= k < |s| ==> s[k].staffed as real - s[k].load >= d
  }

  /** An interval with spare capacity d either reaches its floor or takes d off the backlog. */
  lemma DrainStep(m: Maths, q: Queue, i: Interval, d: real)
    requires IsSound(m) && IsBounded(q) && i.staffed >= 1 && i.load >= 0.0
    requires d > 0.0 && i.staffed as real - i.load >= d
    ensures IsAtFloor(Flow(m, q, i)) || 0.0 < Flow(m, q, i).backlog <= q.backlog - d
  {
    SurvivalIsPartial(m);
    EquilibriumIsNotNegative(m, i);
    var left := q.backlog + NetVolume(i);
    assert left <= q.backlog - d;
    if left > 0.0 {
      ProductGrows(left, Survival(m), left, 1.0);
      assert Times(left, 1.0) == left;
    } else {
      ProductIsNotNegative(-left, Survival(m));
      Distribute(Survival(m), left, 0.0);
    }
    hide Times, Equilibrium, Survival;
  }

  lemma OneMoreTimes(n: int, d: real)
    ensures Times((n + 1) as real, d) == Times(n as real, d) + d
    ensures Times(0.0, d) == 0.0
  {
  }

  lemma {:induction false} DrainsUntilFloor(m: Maths, q: Queue, s: seq<Interval>, d: real)
    requires IsSound(m) && IsBounded(q) && AreStaffed(s) && d > 0.0 && Drains(s, d)
    requires forall j :: 0 < j <= |s| ==> !IsAtFloor(FlowAll(m, q, s[..j]))
    ensures FlowAll(m, q, s).backlog <= q.backlog - Times(|s| as real, d)
    ensures s != [] ==> FlowAll(m, q, s).backlog > 0.0
  {
    hide Times;
    var n := |s| - 1;
    OneMoreTimes(n, d);
    if s != [] {
      var before := FlowAll(m, q, s[..n]);
      forall j | 0 < j <= n
        ensures !IsAtFloor(FlowAll(m, q, s[..n][..j]))
      {
        assert s[..n][..j] == s[..j];
      }
      DrainsUntilFloor(m, q, s[..n], d);
      BacklogIsBounded(m, q, s[..n]);
      DrainStep(m, before, s[n], d);
      assert s[..|s|] == s;
      hide IsSound, IsBounded, Flow, IsAtFloor;
    }
  }

  /** With spare capacity d, the backlog meets its floor within floor(2500/d) + 1 intervals. */
  lemma DrainsInTime(m: Maths, q: Queue, s: seq<Interval>, d: real)
    requires IsSound(m) && IsBounded(q) && AreStaffed(s) && d > 0.0 && Drains(s, d)
    requires |s| == (MAX_QUEUE_LENGTH / d).Floor + 1
    ensures exists j :: 0 < j <= |s| && IsAtFloor(FlowAll(m, q, s[..j]))
  {
    if forall j :: 0 < j <= |s| ==> !IsAtFloor(FlowAll(m, q, s[..j])) {
      DrainsUntilFloor(m, q, s, d);
      EnoughIntervals(|s|, d);
      assert false;
    }
  }

  lemma EnoughIntervals(n: nat, d: real)
    requires d > 0.0 && n == (MAX_QUEUE_LENGTH / d).Floor + 1
    ensures n > 0 && Times(n as real, d) > MAX_QUEUE_LENGTH
  {
    var k := MAX_QUEUE_LENGTH / d;
    assert k * d == MAX_QUEUE_LENGTH;
    assert n as real > k;
    assert (n as real - k) * d > 0.0;
  }

  // ---------------------------------------------------------------- overload

  /** An interval that offers x more than can be taken: the excess joins the queue, and the impatient leave it. */
  lemma OverloadStepIsExact(m: Maths, q: Queue, i: Interval, x: real)
    requires i.staffed >= 1 && x >= 0.0 && i.load == i.staffed as real + x
    ensures var after := Flow(m, q, i);
      var left := Times(q.backlog + x, m.exp(-300.0 / 900.0));
      && after.floor == q.floor
      && after.backlog == Least(if left > q.floor then left else q.floor, 2500.0)
  {
    assert NetVolume(i) == x;
    hide Times, Equilibrium;
  }

  /** An interval with capacity to spare: the queue drains to the floor of a stable one. */
  lemma StableStepIsExact(m: Maths, q: Queue, i: Interval, d: real)
    requires i.staffed >= 1 && d > 0.0 && i.load == i.staffed as real - d
    ensures var after := Flow(m, q, i);
      var left := Times(q.backlog - d, m.exp(-300.0 / 900.0));
      && after.floor == Equilibrium(m, i)
      && after.backlog == Least(if left > after.floor then left else after.floor, 2500.0)
  {
    assert NetVolume(i) == -d;
    hide Times, Equilibrium;
  }

  /** The load exceeds the staff by at least x throughout. */
  predicate Overloads(s: seq<Interval>, x: real) {
    forall k :: 0 <= k < |s| ==> s[k].load - s[k].staffed as real >= x
  }

  /** survival + survival^2 + ... with n terms. */
  function Survivors(m: Maths, n: nat): real {
    if n == 0 then 0.0 else Survival(m) + Times(Survival(m), Survivors(m, n - 1))
  }

  /** What is left after each interval adds up to no more than what leaves an endless queue in balance. */
  lemma {:induction false} SurvivorsAreBounded(m: Maths, n: nat)
    requires IsSound(m)
    ensures 0.0 <= Survivors(m, n) && Times(Survivors(m, n), 1.0 - Survival(m)) <= Survival(m)
  {
    SurvivalIsPartial(m);
    var f := Survival(m);
    if n == 0 {
      Distribute(1.0 - f, 0.0, 0.0);
    } else {
      SurvivorsAreBounded(m, n - 1);
      OneMoreSurvivor(f, Survivors(m, n - 1));
    }
    hide IsSound, Survival;
  }

  lemma OneMoreSurvivor(f: real, sum: real)
    requires 0.0 < f < 1.0 && sum >= 0.0 && Times(sum, 1.0 - f) <= f
    ensures 0.0 <= f + Times(f, sum) && Times(f + Times(f, sum), 1.0 - f) <= f
  {
    var t := sum * (1.0 - f);
    assert f * t <= f * f by {
      assert f * (f - t) >= 0.0;
    }
    assert (f + f * sum) * (1.0 - f) == f * (1.0 - f) + f * t;
    assert f * sum >= 0.0;
  }

  /** One more overloaded interval, from a queue that already holds its share. */
  lemma OverloadGrows(f: real, x: real, sum: real, backlog: real, top: real)
    requires 0.0 < f < 1.0 && x > 0.0 && sum >= 0.0 && Times(sum, 1.0 - f) <= f && top >= 0.0
    requires backlog >= Least(top, Times(x, sum))
    ensures Times(backlog + x, f) >= Least(top, Times(x, f + Times(f, sum)))
  {
    hide Times;
    if backlog >= Times(x, sum) {
      ShareIsKept(f, x, sum, backlog);
    } else {
      FullStaysFull(f, x, sum, backlog, top);
    }
  }

  lemma ShareIsKept(f: real, x: real, sum: real, backlog: real)
    requires f > 0.0 && backlog >= Times(x, sum)
    ensures Times(backlog + x, f) >= Times(x, f + Times(f, sum))
  {
    assert (backlog + x) * f - x * (f + f * sum) == (backlog - x * sum) * f;
    assert (backlog - x * sum) * f >= 0.0;
  }

  lemma FullStaysFull(f: real, x: real, sum: real, backlog: real, top: real)
    requires 0.0 < f < 1.0 && x > 0.0 && sum >= 0.0 && top >= 0.0 && Times(sum, 1.0 - f) <= f
    requires backlog >= top && Times(x, sum) > top
    ensures Times(backlog + x, f) >= top
  {
    hide Times;
    ProductIsNotNegative(sum, 1.0 - f);
    ProductGrows(x, Times(sum, 1.0 - f), x, f);
    ProductGrows(top, 1.0 - f, Times(x, sum), 1.0 - f);
    ProductGrows(top, f, backlog, f);
    Associate(x, sum, 1.0 - f);
    Distribute(top, 1.0, f);
    TimesOne(top);
    Distribute(f, backlog, x);
    Associate(x, f, 0.0);
    Associate(backlog + x, f, 0.0);
  }

  /** Under an excess of x the queue holds, after n intervals, everything of it that has not lost patience. */
  lemma {:induction false} OverloadBuildsUp(m: Maths, q: Queue, s: seq<Interval>, x: real)
    requires IsSound(m) && IsBounded(q) && AreStaffed(s) && x > 0.0 && Overloads(s, x)
    ensures FlowAll(m, q, s).backlog >= Least(MAX_QUEUE_LENGTH, Times(x, Survivors(m, |s|)))
  {
    if s == [] {
      Distribute(x, 0.0, 0.0);
    } else {
      var n := |s| - 1;
      OverloadBuildsUp(m, q, s[..n], x);
      BacklogIsBounded(m, q, s[..n]);
      SurvivalIsPartial(m);
      SurvivorsAreBounded(m, n);
      var before, excess := FlowAll(m, q, s[..n]), s[n].load - s[n].staffed as real;
      OverloadStepIsExact(m, before, s[n], excess);
      OverloadGrows(Survival(m), x, Survivors(m, n), before.backlog, MAX_QUEUE_LENGTH);
      ProductGrows(before.backlog + x, Survival(m), before.backlog + excess, Survival(m));
      hide IsSound, Flow, Times;
    }
  }

  /** At the same floor, a greater load never leaves a shorter queue. */
  lemma MoreLoadMoreBacklog(m: Maths, q: Queue, i: Interval, j: Interval)
    requires IsSound(m) && i.staffed >= 1 && j.staffed == i.staffed && i.load <= j.load
    requires Flow(m, q, i).floor == Flow(m, q, j).floor
    ensures Flow(m, q, i).backlog <= Flow(m, q, j).backlog
  {
    SurvivalIsPartial(m);
    var a, b := q.backlog + NetVolume(i), q.backlog + NetVolume(j);
    assert a <= b;
    ProductIsNotNegative(b - a, Survival(m));
    Distribute(Survival(m), b, a);
    Associate(b - a, Survival(m), 0.0);
    Associate(a, Survival(m), 0.0);
    hide Times, Equilibrium, Survival;
  }

  /** The floor is the mean queue of the textbook: the wait probability times load over spare capacity. */
  lemma EquilibriumIsMeanQueue(m: Maths, i: Interval)
    requires i.staffed >= 1 && 0.0 <= i.load && i.load <= 0.99 * i.staffed as real
    ensures Times(Equilibrium(m, i), i.staffed as real - i.load) ==
            Times(Times(ErlangC.WaitProbability(i.load, i.staffed), i.load), m.exp(i.jitter))
  {
    var c, p, e := i.staffed as real, ErlangC.WaitProbability(i.load, i.staffed), m.exp(i.jitter);
    MeanQueue(p, i.load, c, e);
    hide ErlangC.WaitProbability;
  }

  lemma MeanQueue(p: real, load: real, c: real, e: real)
    requires c >= 1.0 && 0.0 <= load <= 0.99 * c
    ensures Over(load, c) <= 0.99
    ensures Times(Times(Over(Times(p, Over(load, c)), 1.0 - Over(load, c)), e), c - load) == Times(Times(p, load), e)
  {
    var u := load / c;
    assert u * c == load;
    assert (0.99 - u) * c >= 0.0;
    var v := (p * u) / (1.0 - u);
    assert v * (1.0 - u) == p * u;
    assert c - load == c * (1.0 - u);
    assert v * (c * (1.0 - u)) == (v * (1.0 - u)) * c == p * u * c == p * load;
    assert v * e * (c - load) == v * (c - load) * e;
  }

  // ---------------------------------------------------------------- the sample

  datatype QueueMetrics = QueueMetrics(callsWaiting: int, longestWait: real, sla: real, active: int, aux: int)

  /** What the schema accepts. */
  predicate IsEmittable(s: QueueMetrics) {
    s.callsWaiting >= 0 && s.longestWait >= 0.0 && 0.0 <= s.sla <= 100.0 && s.active >= 0 && s.aux >= 0
  }

  function WaitScale(backlog: real, i: Interval): real
    requires i.staffed >= 1
  {
    var capacity := i.staffed as real;
    var backlogScale := Over(AVG_HANDLE_TIME_SECONDS * Greatest(backlog, 1.0), capacity);
    if i.load < capacity then Greatest(Over(AVG_HANDLE_TIME_SECONDS, capacity - i.load), backlogScale)
    else backlogScale
  }

  function SlaOf(m: Maths, backlog: real, i: Interval): real
    requires i.staffed >= 1 && WaitScale(backlog, i) != 0.0
  {
    var p := ErlangC.WaitProbability(i.load, i.staffed);
    Clamp((1.0 - Times(p, m.exp(Over(-SLA_TARGET_SECONDS, WaitScale(backlog, i))))) * 100.0, 0.0, 100.0)
  }

  function LongestWait(m: Maths, backlog: real, i: Interval): real
    requires i.staffed >= 1
  {
    var p := ErlangC.WaitProbability(i.load, i.staffed);
    Least(Times(WaitScale(backlog, i), m.log(Greatest(Times(p, backlog), 1.0))), MAX_LONGEST_WAIT_SECONDS)
  }

  lemma WaitScaleIsPositive(backlog: real, i: Interval)
    requires i.staffed >= 1
    ensures WaitScale(backlog, i) > 0.0
  {
    QuotientIsPositive(AVG_HANDLE_TIME_SECONDS * Greatest(backlog, 1.0), i.staffed as real);
    hide Over;
  }

  /** Waits and service level stay in range, and the level is at least the share of calls that never wait. */
  lemma WaitsAndSlaAreInRange(m: Maths, backlog: real, i: Interval)
    requires IsSound(m) && i.staffed >= 1
    ensures WaitScale(backlog, i) > 0.0
    ensures 0.0 <= LongestWait(m, backlog, i) <= MAX_LONGEST_WAIT_SECONDS
    ensures 0.0 <= SlaOf(m, backlog, i) <= 100.0
    ensures SlaOf(m, backlog, i) >= (1.0 - ErlangC.WaitProbability(i.load, i.staffed)) * 100.0
  {
    hide Times, Over;
    var p := ErlangC.WaitProbability(i.load, i.staffed);
    ErlangC.WaitProbabilityIsProbability(i.load, i.staffed);
    WaitScaleIsPositive(backlog, i);
    var scale := WaitScale(backlog, i);
    hide ErlangC.WaitProbability;
    ProductIsNotNegative(scale, m.log(Greatest(Times(p, backlog), 1.0)));
    QuotientIsPositive(SLA_TARGET_SECONDS, scale);
    var x := Over(-SLA_TARGET_SECONDS, scale);
    NegatedQuotient(SLA_TARGET_SECONDS, scale);
    assert m.exp(x) < m.exp(0.0);
    ProductGrows(p, m.exp(x), p, 1.0);
    Distribute(p, 1.0, 0.0);
    TimesOne(p);
    hide WaitScale;
  }

  /** The service level is the textbook share answered in time; the clamp never bites. */
  lemma SlaIsTheShareInTime(m: Maths, backlog: real, i: Interval)
    requires IsSound(m) && i.staffed >= 1
    ensures WaitScale(backlog, i) > 0.0
    ensures var p := ErlangC.WaitProbability(i.load, i.staffed);
      SlaOf(m, backlog, i) == 100.0 - 100.0 * Times(p, m.exp(Over(-20.0, WaitScale(backlog, i))))
  {
    hide Times, Over;
    var p := ErlangC.WaitProbability(i.load, i.staffed);
    ErlangC.WaitProbabilityIsProbability(i.load, i.staffed);
    WaitScaleIsPositive(backlog, i);
    var scale := WaitScale(backlog, i);
    hide ErlangC.WaitProbability;
    QuotientIsPositive(SLA_TARGET_SECONDS, scale);
    NegatedQuotient(SLA_TARGET_SECONDS, scale);
    var e := m.exp(Over(-SLA_TARGET_SECONDS, scale));
    assert 0.0 < e < m.exp(0.0);
    ProductIsNotNegative(p, e);
    ProductGrows(p, e, 1.0, 1.0);
    TimesOne(1.0);
    hide WaitScale;
  }

  /** The scale is what one call of the queue, or of the spare capacity, takes; a longer queue is never faster. */
  lemma WaitScaleIsExact(backlog: real, i: Interval)
    requires i.staffed >= 1
    ensures var queued := Over(300.0 * (if backlog > 1.0 then backlog else 1.0), i.staffed as real);
      WaitScale(backlog, i) ==
        if i.load < i.staffed as real && Over(300.0, i.staffed as real - i.load) > queued
        then Over(300.0, i.staffed as real - i.load) else queued
  {
  }

  lemma LongerQueueIsSlower(backlog: real, longer: real, i: Interval)
    requires i.staffed >= 1 && backlog <= longer
    ensures WaitScale(backlog, i) <= WaitScale(longer, i)
  {
    QuotientGrows(300.0 * Greatest(backlog, 1.0), i.staffed as real, 300.0 * Greatest(longer, 1.0), i.staffed as real);
    hide Over;
  }

  /** A longer queue never has a better service level. */
  lemma LongerQueueServesWorse(m: Maths, backlog: real, longer: real, i: Interval)
    requires IsSound(m) && i.staffed >= 1 && backlog <= longer
    ensures WaitScale(backlog, i) > 0.0 && WaitScale(longer, i) > 0.0
    ensures SlaOf(m, longer, i) <= SlaOf(m, backlog, i)
  {
    hide Times, Over, SlaOf;
    var p := ErlangC.WaitProbability(i.load, i.staffed);
    ErlangC.WaitProbabilityIsProbability(i.load, i.staffed);
    hide ErlangC.WaitProbability;
    SlaIsTheShareInTime(m, backlog, i);
    SlaIsTheShareInTime(m, longer, i);
    LongerQueueIsSlower(backlog, longer, i);
    var s, t := WaitScale(backlog, i), WaitScale(longer, i);
    QuotientGrows(20.0, t, 20.0, s);
    NegatedQuotient(20.0, s);
    NegatedQuotient(20.0, t);
    var x, y := Over(-20.0, s), Over(-20.0, t);
    assert x < y ==> m.exp(x) < m.exp(y);
    ProductGrows(p, m.exp(x), p, m.exp(y));
    hide WaitScale;
  }

  /** The longest wait is the one that no call in the queue is expected to pass, half an hour at most. */
  lemma LongestWaitIsExact(m: Maths, backlog: real, i: Interval)
    requires i.staffed >= 1
    ensures var expected := Times(ErlangC.WaitProbability(i.load, i.staffed), backlog);
      var wait := Times(WaitScale(backlog, i), m.log(if expected > 1.0 then expected else 1.0));
      LongestWait(m, backlog, i) == if wait < 1800.0 then wait else 1800.0
  {
    hide Times, WaitScale, ErlangC.WaitProbability;
  }

  lemma NegatedQuotient(x: real, y: real)
    requires y != 0.0
    ensures Over(-x, y) == -Over(x, y)
  {
  }

  // ---------------------------------------------------------------- the spike

  datatype Spike = Spike(triggered: bool, elapsed: nat)

  predicate IsSpiking(s: Spike) {
    s.triggered && s.elapsed < SPIKE_DURATION_TICKS + SPIKE_RECOVERY_TICKS
  }

  function NextSpike(s: Spike): Spike {
    if IsSpiking(s) then s.(elapsed := s.elapsed + 1) else s
  }

  /** The ramp after this share of the surge: from the initial shock to 1. */
  function Ramp(m: Maths, progress: real): real
    requires m.exp(SPIKE_CURVE_GAMMA) != 1.0
  {
    var curve := Over(m.exp(SPIKE_CURVE_GAMMA * progress) - 1.0, m.exp(SPIKE_CURVE_GAMMA) - 1.0);
    SPIKE_INITIAL_SHOCK + (1.0 - SPIKE_INITIAL_SHOCK) * curve
  }

  function Multiplier(m: Maths, s: Spike): real
    requires m.exp(SPIKE_CURVE_GAMMA) != 1.0
  {
    var span := SPIKE_PEAK_MULTIPLIER - 1.0;
    if !IsSpiking(s) then 1.0
    else if s.elapsed < SPIKE_DURATION_TICKS then
      1.0 + span * Ramp(m, (s.elapsed + 1) as real / SPIKE_DURATION_TICKS as real)
    else
      1.0 + span * m.exp(-SPIKE_RECOVERY_DECAY * (s.elapsed - SPIKE_DURATION_TICKS + 1) as real)
  }

  function AfterTicks(s: Spike, n: nat): Spike {
    if n == 0 then s else NextSpike(AfterTicks(s, n - 1))
  }

  /** A triggered spike marks exactly its next fourteen ticks. */
  lemma {:induction false} SpikeLastsFourteenTicks(n: nat)
    ensures var s := AfterTicks(Spike(true, 0), n);
      s == Spike(true, if n < 14 then n else 14) && (IsSpiking(s) <==> n < 14)
  {
    if n > 0 {
      SpikeLastsFourteenTicks(n - 1);
    }
  }

  lemma RampIsOrdered(m: Maths, x: real, y: real)
    requires IsSound(m) && 0.0 < x <= y <= 1.0
    ensures m.exp(SPIKE_CURVE_GAMMA) > 1.0
    ensures SPIKE_INITIAL_SHOCK < Ramp(m, x) <= Ramp(m, y) <= 1.0
    ensures x < y ==> Ramp(m, x) < Ramp(m, y)
    ensures Ramp(m, 1.0) == 1.0
  {
    var g := SPIKE_CURVE_GAMMA;
    assert m.exp(0.0) < m.exp(g * x) && m.exp(0.0) < m.exp(g);
    var top := m.exp(g) - 1.0;
    var u, v := m.exp(g * x) - 1.0, m.exp(g * y) - 1.0;
    assert 0.0 < u <= v <= top && (x < y ==> u < v);
    QuotientIsPositive(u, top);
    QuotientGrows(u, top, v, top);
    QuotientGrows(v, top, top, top);
    SelfQuotient(top);
    if x < y {
      QuotientOrder(u, v, top);
    }
    hide Over;
    assert SPIKE_CURVE_GAMMA * 1.0 == SPIKE_CURVE_GAMMA;
  }

  lemma QuotientOrder(x: real, y: real, z: real)
    requires x < y && z > 0.0
    ensures Over(x, z) < Over(y, z)
  {
    QuotientIsPositive(y - x, z);
    assert Over(y - x, z) == Over(y, z) - Over(x, z);
  }

  /** The volume climbs at every tick of the surge up to its peak, then falls at every tick of the recovery. */
  lemma VolumeClimbsThenFalls(m: Maths, s: Spike)
    requires IsSound(m)
    ensures m.exp(SPIKE_CURVE_GAMMA) > 1.0
    ensures 1.0 <= Multiplier(m, s) <= SPIKE_PEAK_MULTIPLIER
    ensures IsSpiking(s) <==> Multiplier(m, s) > 1.0
    ensures s.triggered && s.elapsed == SPIKE_DURATION_TICKS - 1 ==> Multiplier(m, s) == SPIKE_PEAK_MULTIPLIER
    ensures s.triggered && s.elapsed < SPIKE_DURATION_TICKS - 1 ==>
              Multiplier(m, s) < Multiplier(m, NextSpike(s))
    ensures s.triggered && SPIKE_DURATION_TICKS - 1 <= s.elapsed < SPIKE_DURATION_TICKS + SPIKE_RECOVERY_TICKS ==>
              Multiplier(m, s) > Multiplier(m, NextSpike(s))
  {
    hide Ramp;
    RampIsOrdered(m, 1.0, 1.0);
    if IsSpiking(s) && s.elapsed < SPIKE_DURATION_TICKS {
      var x := (s.elapsed + 1) as real / 10.0;
      RampIsOrdered(m, x, if s.elapsed + 1 < 10 then (s.elapsed + 2) as real / 10.0 else x);
    }
    assert m.exp(-SPIKE_RECOVERY_DECAY * (s.elapsed - 10 + 1) as real) > 0.0;
    if s.elapsed >= 9 {
      assert m.exp(-SPIKE_RECOVERY_DECAY * (s.elapsed - 10 + 2) as real) < m.exp(0.0);
      if s.elapsed >= 10 {
        assert m.exp(-SPIKE_RECOVERY_DECAY * (s.elapsed - 10 + 1) as real) < m.exp(0.0);
      }
    }
  }

  /** The curve itself: an exponential climb over ten ticks from a tenth of the peak, then an exponential decay. */
  lemma SurgeCurveIsExact(m: Maths, s: Spike)
    requires m.exp(2.2) != 1.0 && s.triggered
    ensures var k := (s.elapsed + 1) as real;
      Multiplier(m, s) ==
        if s.elapsed < 10 then 1.0 + 0.8 * (0.1 + 0.9 * Over(m.exp(2.2 * (k / 10.0)) - 1.0, m.exp(2.2) - 1.0))
        else if s.elapsed < 14 then 1.0 + 0.8 * m.exp(-0.9 * (k - 10.0))
        else 1.0
  {
    hide Over;
  }

  // ---------------------------------------------------------------- staffing

  function ClampInt(value: int, low: int, high: int): int {
    var v := if value < high then value else high;
    if low > v then low else v
  }

  /** Supervisors pull agents out of auxiliary work as the surge builds. */
  function Staffing(intensity: real, drift: real, auxDrift: real): (r: (int, int))
    // Someone is always left to take calls.
    ensures 0 <= r.1 < r.0 <= CENTER_HEADCOUNT
  {
    var active := ClampInt(RoundHalfEven(CENTER_HEADCOUNT as real + drift), 1, CENTER_HEADCOUNT);
    var target := BASE_AUX_AGENTS - (BASE_AUX_AGENTS - AUX_FLOOR_AGENTS) * intensity;
    (active, ClampInt(RoundHalfEven(target + auxDrift), 0, active - 1))
  }

  /** Undisturbed, all 500 are in, and the surge takes 48 of the 72 out of auxiliary work. */
  lemma StaffingFollowsTheSurge(intensity: real)
    requires 0.0 <= intensity <= 1.0
    ensures Staffing(intensity, 0.0, 0.0) == (500, RoundHalfEven(72.0 - 48.0 * intensity))
    ensures Staffing(0.0, 0.0, 0.0) == (500, 72) && Staffing(1.0, 0.0, 0.0) == (500, 24)
  {
    RoundingKeepsOrder(24.0, 72.0 - 48.0 * intensity);
    RoundingKeepsOrder(72.0 - 48.0 * intensity, 72.0);
  }

  /** A stronger surge never leaves more agents in auxiliary work, and more drift never fewer at their seats. */
  lemma StaffingIsMonotone(intensity: real, stronger: real, drift: real, more: real, auxDrift: real)
    requires intensity <= stronger && drift <= more
    ensures Staffing(stronger, drift, auxDrift).1 <= Staffing(intensity, drift, auxDrift).1
    ensures Staffing(intensity, drift, auxDrift).0 <= Staffing(intensity, more, auxDrift).0
  {
    RoundingKeepsOrder(500.0 + drift, 500.0 + more);
    RoundingKeepsOrder(72.0 - 48.0 * stronger + auxDrift, 72.0 - 48.0 * intensity + auxDrift);
  }

  // ---------------------------------------------------------------- the generator

  /** The random draws of one tick, and the seasonal factor of its index. */
  datatype Draws = Draws(seasonal: real, error: real, drift: real, auxDrift: real, jitter: real)

  /** How far the surge has got, from 0 at the usual volume to 1 at its peak. */
  function Intensity(multiplier: real): real {
    Clamp((multiplier - 1.0) / (SPIKE_PEAK_MULTIPLIER - 1.0), 0.0, 1.0)
  }

  /** The calls offered in an interval, in agents kept busy. */
  function OfferedLoad(m: Maths, multiplier: real, d: Draws): real {
    Times(Times(BASE_ARRIVALS_PER_INTERVAL * multiplier, d.seasonal), m.exp(d.error)) *
    AVG_HANDLE_TIME_SECONDS / SIM_INTERVAL_SECONDS
  }

  /** The interval a tick simulates. */
  function IntervalOf(m: Maths, s: Spike, d: Draws): Interval
    requires m.exp(SPIKE_CURVE_GAMMA) != 1.0
  {
    var seats := Staffing(Intensity(Multiplier(m, s)), d.drift, d.auxDrift);
    Interval(OfferedLoad(m, Multiplier(m, s), d), seats.0 - seats.1, d.jitter)
  }

  /** The load grows in proportion to the volume, from the base of 413.5 calls an interval. */
  lemma LoadFollowsVolume(m: Maths, multiplier: real, d: Draws)
    ensures OfferedLoad(m, multiplier, d) == Times(multiplier, OfferedLoad(m, 1.0, d))
    ensures OfferedLoad(m, 1.0, d) == Times(Times(413.5, d.seasonal), m.exp(d.error))
  {
    Associate(multiplier, 413.5, d.seasonal);
    Associate(multiplier, Times(413.5, d.seasonal), m.exp(d.error));
    assert BASE_ARRIVALS_PER_INTERVAL * multiplier == Times(multiplier, 413.5);
    hide Times;
  }

  class TelemetryGenerator {
    const maths: Maths
    var tickIndex: nat
    var backlog: real
    var equilibriumFloor: real
    var spikeTriggered: bool
    var spikeTicksElapsed: nat
    var spikeActive: bool

    constructor (maths: Maths)
      ensures this.maths == maths
      ensures Flowing() == Queue(0.0, 0.0) && Surging() == Spike(false, 0) && tickIndex == 0 && !spikeActive
    {
      this.maths := maths;
      tickIndex := 0;
      backlog, equilibriumFloor := 0.0, 0.0;
      spikeTriggered, spikeTicksElapsed, spikeActive := false, 0, false;
    }

    function Flowing(): Queue
      reads this
    {
      Queue(backlog, equilibriumFloor)
    }

    function Surging(): Spike
      reads this
    {
      Spike(spikeTriggered, spikeTicksElapsed)
    }

    /** Arm the volume surge; arming it again does nothing. */
    method TriggerSpike()
      modifies this`spikeTriggered, this`spikeTicksElapsed, this`spikeActive
      ensures Surging() == if old(spikeTriggered) then old(Surging()) else Spike(true, 0)
      ensures spikeActive == if old(spikeTriggered) then old(spikeActive) else true
    {
      if spikeTriggered {
        return;
      }
      spikeTriggered := true;
      spikeTicksElapsed := 0;
      spikeActive := true;
    }

    /** The volume multiplier of the next tick, and whether it is part of a spike. */
    method NextVolumeMultiplier() returns (multiplier: real, active: bool)
      requires IsSound(maths)
      modifies this`spikeTicksElapsed
      ensures maths.exp(SPIKE_CURVE_GAMMA) > 1.0
      ensures multiplier == Multiplier(maths, old(Surging()))
      ensures active == IsSpiking(old(Surging()))
      ensures Surging() == NextSpike(old(Surging()))
    {
      hide Ramp;
      VolumeClimbsThenFalls(maths, Surging());
      if !spikeTriggered {
        return 1.0, false;
      }
      var span := SPIKE_PEAK_MULTIPLIER - 1.0;
      if spikeTicksElapsed < SPIKE_DURATION_TICKS {
        spikeTicksElapsed := spikeTicksElapsed + 1;
        var progress := spikeTicksElapsed as real / SPIKE_DURATION_TICKS as real;
        return 1.0 + span * Ramp(maths, progress), true;
      }
      var recovery := spikeTicksElapsed - SPIKE_DURATION_TICKS;
      if recovery < SPIKE_RECOVERY_TICKS {
        spikeTicksElapsed := spikeTicksElapsed + 1;
        return 1.0 + span * maths.exp(-SPIKE_RECOVERY_DECAY * (recovery + 1) as real), true;
      }
      return 1.0, false;
    }

    /** Move the backlog on by one interval and read the queue off it. */
    method DeriveQueue(load: real, staffed: nat, jitter: real)
      returns (callsWaiting: int, longestWait: real, sla: real)
      requires IsSound(maths) && IsBounded(Flowing()) && staffed >= 1 && load >= 0.0
      modifies this`backlog, this`equilibriumFloor
      ensures Flowing() == Flow(maths, old(Flowing()), Interval(load, staffed, jitter))
      ensures IsBounded(Flowing())
      ensures callsWaiting == RoundHalfEven(backlog)
      ensures longestWait == LongestWait(maths, backlog, Interval(load, staffed, jitter))
      ensures WaitScale(backlog, Interval(load, staffed, jitter)) > 0.0
      ensures sla == SlaOf(maths, backlog, Interval(load, staffed, jitter))
    {
      hide Times, Over;
      var i := Interval(load, staffed, jitter);
      FlowStaysBounded(maths, Flowing(), i);
      var capacity := staffed as real;
      var p := ErlangC.Compute(load, staffed);
      hide ErlangC.WaitProbability;
      if load < capacity {
        var u := Least(Over(load, capacity), MAX_FLOOR_UTILISATION);
        equilibriumFloor := Times(Over(Times(p, u), 1.0 - u), maths.exp(jitter));
      }
      var net := (load - capacity) * SIM_INTERVAL_SECONDS / AVG_HANDLE_TIME_SECONDS;
      var next := Times(backlog + net, Survival(maths));
      next := Least(Greatest(next, equilibriumFloor), MAX_QUEUE_LENGTH);
      backlog := next;
      WaitScaleIsPositive(backlog, i);
      var backlogScale := Over(AVG_HANDLE_TIME_SECONDS * Greatest(backlog, 1.0), capacity);
      var waitScale := backlogScale;
      if load < capacity {
        waitScale := Greatest(Over(AVG_HANDLE_TIME_SECONDS, capacity - load), backlogScale);
      }
      var waiting := (1.0 - Times(p, maths.exp(Over(-SLA_TARGET_SECONDS, waitScale)))) * 100.0;
      var longest := Times(waitScale, maths.log(Greatest(Times(p, backlog), 1.0)));
      callsWaiting := RoundHalfEven(backlog);
      longestWait := Least(longest, MAX_LONGEST_WAIT_SECONDS);
      sla := Clamp(waiting, 0.0, 100.0);
    }

    /** One tick: whatever is drawn, the sample it emits is one the schema accepts. */
    method Advance(d: Draws) returns (s: QueueMetrics)
      requires IsSound(maths) && IsBounded(Flowing()) && d.seasonal >= 0.0
      modifies this
      ensures IsEmittable(s) && s.aux < s.active <= CENTER_HEADCOUNT
      ensures IsBounded(Flowing())
      ensures maths.exp(SPIKE_CURVE_GAMMA) > 1.0
      ensures var i := IntervalOf(maths, old(Surging()), d);
        && i.staffed >= 1 && Flowing() == Flow(maths, old(Flowing()), i)
        && WaitScale(backlog, i) > 0.0
        && s.callsWaiting == RoundHalfEven(backlog)
        && s.longestWait == Round1(LongestWait(maths, backlog, i)) && s.sla == Round2(SlaOf(maths, backlog, i))
        && s.active - s.aux == i.staffed
      ensures spikeActive == IsSpiking(old(Surging()))
      ensures Surging() == NextSpike(old(Surging())) && tickIndex == old(tickIndex) + 1
    {
      hide Times, Over, Flow, Multiplier, Ramp, SlaOf, LongestWait, WaitScale, Round1, Round2;
      tickIndex := tickIndex + 1;
      VolumeClimbsThenFalls(maths, Surging());
      var multiplier, active := NextVolumeMultiplier();
      var intensity := Intensity(multiplier);
      var seats := Staffing(intensity, d.drift, d.auxDrift);
      var staffed := if seats.0 - seats.1 > 1 then seats.0 - seats.1 else 1;
      var forecast := Times(Times(BASE_ARRIVALS_PER_INTERVAL * multiplier, d.seasonal), maths.exp(d.error));
      ProductIsNotNegative(BASE_ARRIVALS_PER_INTERVAL * multiplier, d.seasonal);
      ProductIsNotNegative(Times(BASE_ARRIVALS_PER_INTERVAL * multiplier, d.seasonal), maths.exp(d.error));
      var load := forecast * AVG_HANDLE_TIME_SECONDS / SIM_INTERVAL_SECONDS;
      var calls, longest, sla := DeriveQueue(load, staffed, d.jitter);
      WaitsAndSlaAreInRange(maths, backlog, Interval(load, staffed, d.jitter));
      RoundingKeepsOrder(0.0, backlog);
      Round1KeepsSign(longest);
      Round2KeepsRange(sla, 100);
      spikeActive := active;
      s := QueueMetrics(calls, Round1(longest), Round2(sla), seats.0, seats.1);
    }
  }
}
