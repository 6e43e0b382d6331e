/** The supervisor's delivery loop: ticks in order, bounded retries, an honest account. */
module Supervision {
  import opened Wrappers
  import opened Reals

  /** What one POST came to. */
  datatype Outcome = Unreachable | Status(code: int)

  predicate IsDelivered(o: Outcome) {
    o.Status? && 200 <= o.code < 300
  }

  predicate IsRetryableStatus(code: int) {
    code >= 500 || code == 429
  }

  predicate IsRejectionStatus(code: int) {
    400 <= code < 500 && !IsRetryableStatus(code)
  }

  predicate IsRetryable(o: Outcome) {
    o.Unreachable? || (!IsDelivered(o) && IsRetryableStatus(o.code))
  }

  predicate IsRejected(o: Outcome) {
    o.Status? && IsRejectionStatus(o.code)
  }

  /** Statuses neither accepted, nor worth a retry, nor a rejection: 1xx and 3xx, and anything below 100. */
  lemma GivenUpStatuses(o: Outcome)
    ensures !IsDelivered(o) && !IsRetryable(o) && !IsRejected(o) <==>
            o.Status? && (o.code < 200 || 300 <= o.code < 400)
  {
  }

  datatype RetryPolicy = RetryPolicy(attempts: int, base: real, factor: real, max: real)

  function Power(x: real, n: nat): real {
    if n == 0 then 1.0 else Times(Power(x, n - 1), x)
  }

  /** Backoff to wait after a failed attempt, capped at the ceiling. */
  function DelayAfter(p: RetryPolicy, attempt: nat): real
    requires attempt >= 1
  {
    var grown := Times(p.base, Power(p.factor, attempt - 1));
    if p.max < grown then p.max else grown
  }

  /** What each answer means. */
  lemma AnswersAreClassified(o: Outcome)
    ensures IsDelivered(o) <==> o.Status? && 200 <= o.code <= 299
    ensures IsRetryable(o) <==> o.Unreachable? || o.code == 429 || o.code >= 500
    ensures IsRejected(o) <==> o.Status? && 400 <= o.code <= 499 && o.code != 429
  {
  }

  /** The first delay is the base, each next one the factor times the last, up to the ceiling. */
  lemma DelayGrowsGeometrically(p: RetryPolicy, attempt: nat)
    requires p.base >= 0.0 && p.factor >= 1.0 && p.max >= 0.0 && attempt >= 1
    ensures DelayAfter(p, 1) == if p.max < p.base then p.max else p.base
    ensures var next := Times(DelayAfter(p, attempt), p.factor);
      DelayAfter(p, attempt + 1) == if p.max < next then p.max else next
  {
    var w := Power(p.factor, attempt - 1);
    assert Power(p.factor, attempt) == Times(w, p.factor);
    assert Power(p.factor, 0) == 1.0;
    TimesOne(p.base);
    PowerIsPositive(p.factor, attempt - 1);
    ProductIsNotNegative(p.base, w);
    Associate(p.base, w, p.factor);
    hide Power;
    var grown := Times(p.base, w);
    if p.max < grown {
      ProductGrows(p.max, 1.0, p.max, p.factor);
      ProductGrows(grown, 1.0, grown, p.factor);
      ProductGrows(p.max, p.factor, grown, p.factor);
      TimesOne(p.max);
      TimesOne(grown);
    }
    hide Times;
  }

  // ---------------------------------------------------------------- one payload

  datatype Post = Post(tick: nat, attempt: nat, outcome: Outcome)

  datatype Report = Report(delivered: bool, rejected: bool, attempts: nat)

  /** The posts made for one payload, the waits between them, and the report; None when there was no budget at all. */
  datatype Delivery = Delivery(posts: seq<Post>, waits: seq<real>, report: Option<Report>)

  type Engine = (nat, nat) -> Outcome

  /** Whether an attempt is the last: accepted, hopeless, or out of budget. */
  predicate Settles(p: RetryPolicy, o: Outcome, attempt: nat) {
    IsDelivered(o) || !IsRetryable(o) || attempt == p.attempts
  }

  function DeliverFrom(p: RetryPolicy, e: Engine, tick: nat, attempt: nat): Delivery
    requires attempt >= 1
    decreases p.attempts - attempt
  {
    if attempt > p.attempts then Delivery([], [], None)
    else
      var o := e(tick, attempt);
      var post := Post(tick, attempt, o);
      if Settles(p, o, attempt) then Delivery([post], [], Some(Report(IsDelivered(o), IsRejected(o), attempt)))
      else
        var rest := DeliverFrom(p, e, tick, attempt + 1);
        Delivery([post] + rest.posts, [DelayAfter(p, attempt)] + rest.waits, rest.report)
  }

  function Deliver(p: RetryPolicy, e: Engine, tick: nat): Delivery {
    DeliverFrom(p, e, tick, 1)
  }

  /** Posts numbered from attempt on, each but the last worth another try, the last settling the matter. */
  ghost predicate IsCampaign(p: RetryPolicy, tick: nat, attempt: nat, d: Delivery)
    requires attempt >= 1
  {
    && d.posts != []
    && attempt + |d.posts| - 1 <= p.attempts
    && (forall i :: 0 <= i < |d.posts| ==> d.posts[i].tick == tick && d.posts[i].attempt == attempt + i)
    && (forall i :: 0 <= i < |d.posts| - 1 ==> IsRetryable(d.posts[i].outcome))
    && |d.waits| == |d.posts| - 1
    && (forall i :: 0 <= i < |d.waits| ==> d.waits[i] == DelayAfter(p, attempt + i))
    && var last := d.posts[|d.posts| - 1];
    && Settles(p, last.outcome, last.attempt)
    && d.report == Some(Report(IsDelivered(last.outcome), IsRejected(last.outcome), last.attempt))
  }

  lemma {:induction false} DeliveryIsCampaign(p: RetryPolicy, e: Engine, tick: nat, attempt: nat)
    requires 1 <= attempt <= p.attempts
    ensures IsCampaign(p, tick, attempt, DeliverFrom(p, e, tick, attempt))
    decreases p.attempts - attempt
  {
    hide DelayAfter, IsRetryable;
    if !Settles(p, e(tick, attempt), attempt) {
      DeliveryIsCampaign(p, e, tick, attempt + 1);
      var rest, d := DeliverFrom(p, e, tick, attempt + 1), DeliverFrom(p, e, tick, attempt);
      assert forall i :: 0 < i < |d.posts| ==> d.posts[i] == rest.posts[i - 1];
      assert forall i :: 0 < i < |d.waits| ==> d.waits[i] == rest.waits[i - 1];
    }
  }

  // ---------------------------------------------------------------- backoff

  function Total(waits: seq<real>): real {
    if waits == [] then 0.0 else Total(waits[..|waits| - 1]) + waits[|waits| - 1]
  }

  /** base + base * factor + ... with n terms. */
  function Geometric(p: RetryPolicy, n: nat): real {
    if n == 0 then 0.0 else Geometric(p, n - 1) + Times(p.base, Power(p.factor, n - 1))
  }

  lemma {:induction false} GeometricSum(p: RetryPolicy, n: nat)
    ensures Times(Geometric(p, n), p.factor - 1.0) == Times(p.base, Power(p.factor, n) - 1.0)
  {
    hide Times;
    if n == 0 {
      Distribute(p.factor - 1.0, 0.0, 0.0);
      Distribute(p.base, 0.0, 0.0);
    } else {
      GeometricSum(p, n - 1);
      var b, f, w := p.base, p.factor, Power(p.factor, n - 1);
      Distribute(f - 1.0, Geometric(p, n - 1), Times(b, w));
      Distribute(Times(b, w), f, 1.0);
      Associate(b, w, f);
      Distribute(b, w, 1.0);
      Distribute(b, Times(w, f), 1.0);
      TimesOne(b);
      TimesOne(Times(b, w));
      Associate(Geometric(p, n), f - 1.0, 1.0);
      Associate(Geometric(p, n - 1), f - 1.0, 1.0);
      Associate(Times(b, w), f - 1.0, 1.0);
    }
  }

  lemma {:induction false} WaitsAreBounded(p: RetryPolicy, waits: seq<real>)
    requires forall i :: 0 <= i < |waits| ==> waits[i] == DelayAfter(p, i + 1)
    ensures Total(waits) <= Times(|waits| as real, p.max)
    ensures Total(waits) <= Geometric(p, |waits|)
  {
    if waits == [] {
      assert Times(0.0, p.max) == 0.0;
    } else {
      var n := |waits| - 1;
      WaitsAreBounded(p, waits[..n]);
      Distribute(p.max, n as real, 1.0);
      TimesOne(p.max);
      hide Times;
    }
  }

  lemma {:induction false} PowerIsPositive(x: real, n: nat)
    requires x > 0.0
    ensures Power(x, n) > 0.0
  {
    if n > 0 {
      PowerIsPositive(x, n - 1);
      ProductIsPositive(Power(x, n - 1), x);
      hide Times;
    }
  }

  lemma {:induction false} GeometricGrows(p: RetryPolicy, m: nat, n: nat)
    requires p.base >= 0.0 && p.factor > 0.0 && m <= n
    ensures Geometric(p, m) <= Geometric(p, n)
    decreases n - m
  {
    if m < n {
      GeometricGrows(p, m, n - 1);
      PowerIsPositive(p.factor, n - 1);
      ProductIsNotNegative(p.base, Power(p.factor, n - 1));
      hide Times, Power;
    }
  }

  /** The backoff spent on one tick, against both ceilings. */
  lemma BackoffIsBounded(p: RetryPolicy, e: Engine, tick: nat)
    requires p.attempts >= 1 && 0.0 <= p.base <= p.max && p.factor > 0.0 && p.factor != 1.0
    ensures var spent := Total(Deliver(p, e, tick).waits);
      && spent <= Times((p.attempts - 1) as real, p.max)
      && spent <= Over(Times(p.base, Power(p.factor, p.attempts - 1) - 1.0), p.factor - 1.0)
  {
    DeliveryIsCampaign(p, e, tick, 1);
    var d := Deliver(p, e, tick);
    var n := |d.waits|;
    WaitsAreBounded(p, d.waits);
    ProductGrows(n as real, p.max, (p.attempts - 1) as real, p.max);
    GeometricGrows(p, n, p.attempts - 1);
    GeometricSum(p, p.attempts - 1);
    hide Times, Over, Power, DeliverFrom;
    QuotientIs(Geometric(p, p.attempts - 1), p.factor - 1.0, Times(p.base, Power(p.factor, p.attempts - 1) - 1.0));
  }

  lemma QuotientIs(q: real, y: real, x: real)
    requires y != 0.0 && Times(q, y) == x
    ensures Over(x, y) == q
  {
  }

  // ---------------------------------------------------------------- the whole stream

  /** One line of the twin's output, stripped and decoded. */
  datatype Line = Blank | Malformed | Envelope(payload: string)

  datatype Fault = NotAnEnvelope | Rejected | NoBudget

  /** The accounting so far; fates tells of each settled tick whether it was delivered. */
  datatype Tally = Tally(seen: nat, delivered: nat, dropped: nat, posts: seq<Post>, fates: seq<bool>,
                         fault: Option<Fault>)

  const NOTHING := Tally(0, 0, 0, [], [], None)

  function Account(p: RetryPolicy, e: Engine, t: Tally, line: Line): Tally {
    if t.fault.Some? || line.Blank? then t
    else
      var tick := t.seen + 1;
      var s := t.(seen := tick);
      if line.Malformed? then s.(fault := Some(NotAnEnvelope))
      else
        var d := Deliver(p, e, tick);
        var s := s.(posts := t.posts + d.posts);
        match d.report
        case None => s.(fault := Some(NoBudget))
        case Some(r) =>
          if r.delivered then s.(delivered := t.delivered + 1, fates := t.fates + [true])
          else if r.rejected then s.(fault := Some(Rejected))
          else s.(dropped := t.dropped + 1, fates := t.fates + [false])
  }

  function Pumped(p: RetryPolicy, e: Engine, lines: seq<Line>): Tally {
    if lines == [] then NOTHING
    else Account(p, e, Pumped(p, e, lines[..|lines| - 1]), lines[|lines| - 1])
  }

  /** What may directly follow a post: its retry, or the first post of a later tick. */
  predicate Follows(p: RetryPolicy, a: Post, b: Post) {
    && 1 <= b.attempt <= p.attempts
    && (|| (b.tick == a.tick && b.attempt == a.attempt + 1 && IsRetryable(a.outcome))
        || (b.tick > a.tick && b.attempt == 1 && Settles(p, a.outcome, a.attempt)))
  }

  ghost predicate IsOrdered(p: RetryPolicy, posts: seq<Post>) {
    && (posts != [] ==> posts[0].attempt == 1 && posts[0].tick >= 1)
    && (forall i, j :: 0 <= i < j < |posts| && j == i + 1 ==> Follows(p, posts[i], posts[j]))
  }

  ghost predicate HasSuccess(posts: seq<Post>, tick: nat) {
    exists i :: 0 <= i < |posts| && posts[i].tick == tick && IsDelivered(posts[i].outcome)
  }

  function Deliveries(fates: seq<bool>): nat {
    if fates == [] then 0 else Deliveries(fates[..|fates| - 1]) + if fates[|fates| - 1] then 1 else 0
  }

  /** Posts are in order, every settled tick's fate is what its posts say, and the counters add up. */
  ghost predicate IsHonest(p: RetryPolicy, t: Tally) {
    && IsOrdered(p, t.posts)
    && (t.posts != [] ==> t.posts[|t.posts| - 1].tick <= t.seen)
    && (t.posts != [] && t.fault.None? ==>
          Settles(p, t.posts[|t.posts| - 1].outcome, t.posts[|t.posts| - 1].attempt))
    && (forall i :: 0 <= i < |t.posts| ==> t.posts[i].tick <= t.seen)
    && (forall k :: 0 <= k < |t.fates| ==> (t.fates[k] <==> HasSuccess(t.posts, k + 1)))
    && |t.fates| == t.delivered + t.dropped
    && Deliveries(t.fates) == t.delivered
    && t.seen == |t.fates| + if t.fault.Some? then 1 else 0
  }

  lemma CampaignExtendsOrder(p: RetryPolicy, posts: seq<Post>, tick: nat, d: Delivery)
    requires IsOrdered(p, posts) && IsCampaign(p, tick, 1, d) && tick >= 1
    requires posts != [] ==> posts[|posts| - 1].tick < tick
    requires posts != [] ==> Settles(p, posts[|posts| - 1].outcome, posts[|posts| - 1].attempt)
    ensures IsOrdered(p, posts + d.posts)
  {
    var all, n := posts + d.posts, |posts|;
    hide Settles, IsRetryable;
    forall i, j | 0 <= i < j < |all| && j == i + 1
      ensures Follows(p, all[i], all[j])
    {
      if j < n {
        assert Follows(p, posts[i], posts[j]);
      } else if i >= n {
        assert all[i] == d.posts[i - n] && all[j] == d.posts[j - n];
      }
    }
  }

  lemma CampaignSuccess(p: RetryPolicy, posts: seq<Post>, tick: nat, d: Delivery)
    requires IsCampaign(p, tick, 1, d)
    requires forall i :: 0 <= i < |posts| ==> posts[i].tick < tick
    ensures HasSuccess(posts + d.posts, tick) <==> d.report.value.delivered
    ensures forall t: nat :: t < tick ==> (HasSuccess(posts + d.posts, t) <==> HasSuccess(posts, t))
  {
    var all, n := posts + d.posts, |posts|;
    var last := |d.posts| - 1;
    assert all[n + last] == d.posts[last];
    assert forall i :: n <= i < |all| ==> all[i] == d.posts[i - n];
    assert forall i :: 0 <= i < n ==> all[i] == posts[i];
    hide Settles;
    forall i | 0 <= i < |all| && all[i].tick == tick && IsDelivered(all[i].outcome)
      ensures i == n + last
    {
      assert i >= n;
    }
    forall t: nat | t < tick
      ensures HasSuccess(all, t) <==> HasSuccess(posts, t)
    {
      if HasSuccess(all, t) {
        var i :| 0 <= i < |all| && all[i].tick == t && IsDelivered(all[i].outcome);
        assert i < n && posts[i] == all[i];
      }
      if HasSuccess(posts, t) {
        var i :| 0 <= i < |posts| && posts[i].tick == t && IsDelivered(posts[i].outcome);
        assert all[i] == posts[i];
      }
    }
  }

  /** The tally once a tick's posts are in. */
  lemma SettledStaysHonest(p: RetryPolicy, t: Tally, d: Delivery, after: Tally)
    requires IsHonest(p, t) && t.fault.None? && IsCampaign(p, t.seen + 1, 1, d)
    requires after.posts == t.posts + d.posts && after.seen == t.seen + 1
    requires
      var r := d.report.value;
      if r.delivered || !r.rejected then
        && after.fault.None? && after.fates == t.fates + [r.delivered]
        && after.delivered == t.delivered + (if r.delivered then 1 else 0)
        && after.dropped == t.dropped + if r.delivered then 0 else 1
      else
        after.fault.Some? && after.fates == t.fates && after.delivered == t.delivered && after.dropped == t.dropped
    ensures IsHonest(p, after)
  {
    hide IsOrdered, HasSuccess, Settles, IsRetryable, DelayAfter, IsDelivered, IsRejected;
    var tick := t.seen + 1;
    CampaignExtendsOrder(p, t.posts, tick, d);
    CampaignSuccess(p, t.posts, tick, d);
    forall k | 0 <= k < |after.fates|
      ensures after.fates[k] <==> HasSuccess(after.posts, k + 1)
    {
      if k < |t.fates| {
        assert t.fates[k] <==> HasSuccess(t.posts, k + 1);
      }
    }
    assert after.fates == t.fates || after.fates[..|t.fates|] == t.fates;
    assert forall i :: |t.posts| <= i < |after.posts| ==> after.posts[i] == d.posts[i - |t.posts|];
  }

  lemma AccountStaysHonest(p: RetryPolicy, e: Engine, t: Tally, line: Line)
    requires p.attempts >= 1 && IsHonest(p, t)
    ensures IsHonest(p, Account(p, e, t, line))
    ensures Account(p, e, t, line).fault != Some(NoBudget) || t.fault == Some(NoBudget)
  {
    hide IsOrdered, HasSuccess, Settles, IsRetryable, DelayAfter, IsDelivered, IsRejected, DeliverFrom;
    if t.fault.None? && line.Envelope? {
      var d := Deliver(p, e, t.seen + 1);
      DeliveryIsCampaign(p, e, t.seen + 1, 1);
      SettledStaysHonest(p, t, d, Account(p, e, t, line));
      hide IsHonest;
    }
  }

  /** Whatever the twin prints and the engine answers, the account is honest. */
  lemma {:induction false} AccountIsHonest(p: RetryPolicy, e: Engine, lines: seq<Line>)
    requires p.attempts >= 1
    ensures IsHonest(p, Pumped(p, e, lines))
    ensures Pumped(p, e, lines).fault != Some(NoBudget)
  {
    hide IsHonest, Account;
    if lines != [] {
      AccountIsHonest(p, e, lines[..|lines| - 1]);
      AccountStaysHonest(p, e, Pumped(p, e, lines[..|lines| - 1]), lines[|lines| - 1]);
    } else {
      NothingIsHonest(p);
    }
  }

  lemma NothingIsHonest(p: RetryPolicy)
    ensures IsHonest(p, NOTHING)
  {
  }

  /** A policy without a single attempt fails on the first envelope, having posted nothing. */
  lemma {:induction false} NoBudgetFails(p: RetryPolicy, e: Engine, lines: seq<Line>)
    requires p.attempts < 1
    ensures var t := Pumped(p, e, lines);
      t.posts == [] && t.fates == [] && (t.fault.None? <==> forall i :: 0 <= i < |lines| ==> lines[i].Blank?)
  {
    if lines != [] {
      NoBudgetFails(p, e, lines[..|lines| - 1]);
    }
  }

  /** Two posts in order: the later one is for a later tick, or a later attempt at the same. */
  lemma {:induction false} PostsGoForward(p: RetryPolicy, posts: seq<Post>, i: nat, j: nat)
    requires IsOrdered(p, posts) && i < j < |posts|
    ensures posts[i].tick <= posts[j].tick
    ensures posts[i].tick == posts[j].tick ==> posts[j].attempt == posts[i].attempt + (j - i)
    ensures posts[i].tick == posts[j].tick ==> !IsDelivered(posts[i].outcome)
    ensures 1 <= posts[j].attempt <= p.attempts
    decreases j - i
  {
    assert Follows(p, posts[j - 1], posts[j]);
    if i < j - 1 {
      PostsGoForward(p, posts, i, j - 1);
      hide Settles;
    }
  }

  /** In order of ticks, at most attempts posts a tick, and a success is the only one and the last of its tick. */
  lemma DeliveryIsOrderly(p: RetryPolicy, e: Engine, lines: seq<Line>, i: nat, j: nat)
    requires p.attempts >= 1
    requires i < j < |Pumped(p, e, lines).posts|
    ensures var posts := Pumped(p, e, lines).posts;
      && posts[i].tick <= posts[j].tick
      && (posts[i].tick == posts[j].tick ==> j - i < p.attempts && !IsDelivered(posts[i].outcome))
  {
    AccountIsHonest(p, e, lines);
    var posts := Pumped(p, e, lines).posts;
    PostsGoForward(p, posts, i, j);
    if i > 0 {
      PostsGoForward(p, posts, 0, i);
    }
  }

  const EXIT_SUCCESS := 0
  const EXIT_FAILURE := 1

  function Classify(t: Tally, twinExit: Option<int>): int {
    if twinExit != Some(0) then EXIT_FAILURE else if t.dropped > 0 then EXIT_FAILURE else EXIT_SUCCESS
  }

  /** A stream that ends normally is fully accounted for, and exit 0 means every single tick was delivered. */
  lemma ExitZeroMeansDelivered(p: RetryPolicy, e: Engine, lines: seq<Line>, twinExit: Option<int>)
    requires p.attempts >= 1 && Pumped(p, e, lines).fault.None?
    ensures var t := Pumped(p, e, lines);
      && t.seen == t.delivered + t.dropped
      && (Classify(t, twinExit) == EXIT_SUCCESS <==>
            twinExit == Some(0) && forall tick :: 1 <= tick <= t.seen ==> HasSuccess(t.posts, tick))
  {
    AccountIsHonest(p, e, lines);
    var t := Pumped(p, e, lines);
    AllDelivered(t.fates);
    forall tick | 1 <= tick <= t.seen
      ensures t.fates[tick - 1] <==> HasSuccess(t.posts, tick)
    {
    }
    if forall tick :: 1 <= tick <= t.seen ==> HasSuccess(t.posts, tick) {
      forall k | 0 <= k < |t.fates|
        ensures t.fates[k]
      {
        assert HasSuccess(t.posts, k + 1);
      }
    }
    hide HasSuccess;
  }

  lemma {:induction false} AllDelivered(fates: seq<bool>)
    ensures Deliveries(fates) <= |fates|
    ensures Deliveries(fates) == |fates| <==> forall k :: 0 <= k < |fates| ==> fates[k]
  {
    if fates != [] {
      AllDelivered(fates[..|fates| - 1]);
    }
  }
}

/** The supervisor as the object that keeps the counters. */
module SupervisorProcess {
  import opened Wrappers
  import opened Supervision

  class Supervisor {
    const policy: RetryPolicy
    const engine: Engine
    var ticksSeen: nat
    var delivered: nat
    var dropped: nat
    ghost var posts: seq<Post>
    ghost var fates: seq<bool>

    constructor (policy: RetryPolicy, engine: Engine)
      ensures this.policy == policy && this.engine == engine && Value(None) == NOTHING
    {
      this.policy := policy;
      this.engine := engine;
      ticksSeen, delivered, dropped := 0, 0, 0;
      posts, fates := [], [];
    }

    ghost function Value(fault: Option<Fault>): Tally
      reads this
    {
      Tally(ticksSeen, delivered, dropped, posts, fates, fault)
    }

    /** POST one payload, holding it through the retry budget before giving up on it. */
    method DeliverOne(tick: nat) returns (report: Option<Report>, waited: real)
      modifies this`posts
      ensures report == Deliver(policy, engine, tick).report
      ensures posts == old(posts) + Deliver(policy, engine, tick).posts
      ensures waited == Total(Deliver(policy, engine, tick).waits)
    {
      hide DelayAfter, IsDelivered, IsRetryable, IsRejected, Total;
      waited := 0.0;
      ghost var whole := Deliver(policy, engine, tick);
      ghost var made: seq<Post>, waits: seq<real> := [], [];
      assert IsRest(whole, made, waits, DeliverFrom(policy, engine, tick, 1));
      hide IsRest, DeliverFrom, Deliver;
      NoWaits();
      var attempt := 1;
      while attempt <= policy.attempts
        invariant 1 <= attempt
        invariant posts == old(posts) + made
        invariant IsRest(whole, made, waits, DeliverFrom(policy, engine, tick, attempt))
        invariant waited == Total(waits)
      {
        var outcome := engine(tick, attempt);
        posts := posts + [Post(tick, attempt, outcome)];
        ghost var before := made;
        made := made + [Post(tick, attempt, outcome)];
        if IsDelivered(outcome) || !IsRetryable(outcome) || attempt == policy.attempts {
          RestEnds(whole, before, waits, policy, engine, tick, attempt);
          return Some(Report(IsDelivered(outcome), IsRejected(outcome), attempt)), waited;
        }
        var delay := DelayAfter(policy, attempt);
        waited := waited + delay;
        TotalGrows(waits, delay);
        RestAdvances(whole, before, waits, policy, engine, tick, attempt);
        waits := waits + [delay];
        attempt := attempt + 1;
      }
      RestEnds(whole, made, waits, policy, engine, tick, attempt);
      report := None;
    }

    /** Read line by line, delivering each tick before reading the next. */
    method Pump(lines: seq<Line>) returns (fault: Option<Fault>)
      requires Value(None) == NOTHING
      modifies this
      ensures Value(fault) == Pumped(policy, engine, lines)
    {
      hide Deliver;
      fault := None;
      var n := 0;
      while n < |lines| && fault.None?
        invariant 0 <= n <= |lines|
        invariant Value(fault) == Pumped(policy, engine, lines[..n])
      {
        ghost var before := Value(fault);
        assert lines[..n + 1][..n] == lines[..n];
        var line := lines[n];
        n := n + 1;
        if line.Blank? {
          continue;
        }
        ticksSeen := ticksSeen + 1;
        if line.Malformed? {
          fault := Some(NotAnEnvelope);
        } else {
          var report, waited := DeliverOne(ticksSeen);
          if report.None? {
            fault := Some(NoBudget);
          } else if report.value.delivered {
            delivered := delivered + 1;
            fates := fates + [true];
          } else if report.value.rejected {
            fault := Some(Rejected);
          } else {
            dropped := dropped + 1;
            fates := fates + [false];
          }
        }
        assert Value(fault) == Account(policy, engine, before, line);
      }
      FaultStops(policy, engine, lines, n);
    }
  }

  /** What has been done and what is left make up the whole delivery. */
  ghost predicate IsRest(whole: Delivery, made: seq<Post>, waits: seq<real>, rest: Delivery) {
    whole.posts == made + rest.posts && whole.waits == waits + rest.waits && whole.report == rest.report
  }

  /** One more attempt that settles nothing. */
  lemma RestAdvances(whole: Delivery, made: seq<Post>, waits: seq<real>, p: RetryPolicy, e: Engine, tick: nat,
                     attempt: nat)
    requires 1 <= attempt <= p.attempts && !Settles(p, e(tick, attempt), attempt)
    requires IsRest(whole, made, waits, DeliverFrom(p, e, tick, attempt))
    ensures IsRest(whole, made + [Post(tick, attempt, e(tick, attempt))], waits + [DelayAfter(p, attempt)],
                   DeliverFrom(p, e, tick, attempt + 1))
  {
    hide Settles, DelayAfter;
  }

  /** The attempt that settles it, or the budget running out. */
  lemma RestEnds(whole: Delivery, made: seq<Post>, waits: seq<real>, p: RetryPolicy, e: Engine, tick: nat, attempt: nat)
    requires 1 <= attempt && IsRest(whole, made, waits, DeliverFrom(p, e, tick, attempt))
    requires attempt > p.attempts || Settles(p, e(tick, attempt), attempt)
    ensures whole.waits == waits
    ensures attempt > p.attempts ==> whole.posts == made && whole.report == None
    ensures attempt <= p.attempts ==>
              && whole.posts == made + [Post(tick, attempt, e(tick, attempt))]
              && whole.report == Some(Report(IsDelivered(e(tick, attempt)), IsRejected(e(tick, attempt)), attempt))
  {
    hide Settles, IsDelivered, IsRejected;
  }

  lemma NoWaits()
    ensures Total([]) == 0.0
  {
  }

  lemma TotalGrows(waits: seq<real>, delay: real)
    ensures Total(waits + [delay]) == Total(waits) + delay
  {
    assert (waits + [delay])[..|waits|] == waits;
  }

  /** Lines after a fault change nothing. */
  lemma {:induction false} FaultStops(p: RetryPolicy, e: Engine, lines: seq<Line>, n: nat)
    requires n <= |lines| && (n < |lines| ==> Pumped(p, e, lines[..n]).fault.Some?)
    ensures Pumped(p, e, lines) == Pumped(p, e, lines[..n])
    decreases |lines|
  {
    if n < |lines| {
      var most := lines[..|lines| - 1];
      assert most[..n] == lines[..n];
      FaultStops(p, e, most, n);
    } else {
      assert lines[..n] == lines;
    }
  }
}
