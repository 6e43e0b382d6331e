/** The probability that a call waits, by the stable recursion, against the textbook formula. */
module ErlangC {
  import opened Reals

  /** One over the Erlang B blocking probability, server by server. */
  function InverseBlocking(load: real, servers: nat): (r: real)
    requires load > 0.0
    ensures r >= 1.0
  {
    if servers == 0 then 1.0
    else
      var before := InverseBlocking(load, servers - 1);
      QuotientIsNotNegative(before * servers as real, load);
      1.0 + Over(Times(before, servers as real), load)
  }

  /** load^k / k! */
  function Term(load: real, k: nat): (r: real)
    requires load > 0.0
    ensures r > 0.0
  {
    if k == 0 then 1.0
    else
      ProductIsPositive(Term(load, k - 1), load);
      QuotientIsPositive(Times(Term(load, k - 1), load), k as real);
      Over(Times(Term(load, k - 1), load), k as real)
  }

  /** The sum of the first n terms. */
  function Terms(load: real, n: nat): (r: real)
    requires load > 0.0
    ensures r >= 0.0
  {
    if n == 0 then 0.0 else Terms(load, n - 1) + Term(load, n - 1)
  }

  /** The last term, weighted by how long it takes to drain. */
  function WaitingTerm(load: real, servers: nat): (r: real)
    requires 0.0 < load < servers as real
    ensures r > 0.0
  {
    ProductIsPositive(Term(load, servers), servers as real);
    QuotientIsPositive(Times(Term(load, servers), servers as real), servers as real - load);
    Over(Times(Term(load, servers), servers as real), servers as real - load)
  }

  /** The textbook Erlang C formula, with the limits for the cases it does not cover. */
  function WaitProbability(load: real, servers: int): real {
    if servers <= 0 then 1.0
    else if load <= 0.0 then 0.0
    else if load >= servers as real then 1.0
    else Over(WaitingTerm(load, servers), Terms(load, servers) + WaitingTerm(load, servers))
  }

  // ---------------------------------------------------------------- the recursion is the sum

  /** (1 + i * k / a) * (t * a / k) == t * a / k + i * t */
  lemma StepTimesTerm(i: real, t: real, a: real, k: real)
    requires a > 0.0 && k > 0.0
    ensures Times(Over(Times(i, k), a), Over(Times(t, a), k)) == Times(i, t)
  {
    var x, y := Over(Times(i, k), a), Over(Times(t, a), k);
    OverTimes(Times(i, k), a);
    OverTimes(Times(t, a), k);
    ProductIsPositive(a, k);
    calc {
      Times(Times(x, y), Times(a, k));
      { Shuffle(x, y, a, k); }
      Times(Times(x, a), Times(y, k));
      Times(Times(i, k), Times(t, a));
      { Shuffle(i, t, k, a); }
      Times(Times(i, t), Times(k, a));
      { Associate(k, a, 1.0); }
      Times(Times(i, t), Times(a, k));
    }
    hide Times, Over;
    CancelFactor(Times(x, y), Times(i, t), Times(a, k));
  }

  /** The recursion times its own term is the sum of the terms so far. */
  lemma {:induction false} RecursionIsSum(load: real, k: nat)
    requires load > 0.0
    ensures Times(InverseBlocking(load, k), Term(load, k)) == Terms(load, k + 1)
  {
    if k > 0 {
      var i, t := InverseBlocking(load, k - 1), Term(load, k - 1);
      RecursionIsSum(load, k - 1);
      StepTimesTerm(i, t, load, k as real);
      var x := Over(Times(i, k as real), load);
      Distribute(Term(load, k), 1.0, x);
      assert Times(Term(load, k), 1.0) == Term(load, k);
      hide Times, Over;
      assert Terms(load, k + 1) == Terms(load, k) + Term(load, k);
    }
  }

  // ---------------------------------------------------------------- one over the wait probability

  /** How much larger than 1 the inverse of the wait probability is. */
  function Excess(load: real, servers: nat): (r: real)
    requires 0.0 < load < servers as real
    ensures r >= 0.0
  {
    ProductIsNotNegative(InverseBlocking(load, servers - 1), servers as real - load);
    QuotientIsNotNegative(Times(InverseBlocking(load, servers - 1), servers as real - load), load);
    Over(Times(InverseBlocking(load, servers - 1), servers as real - load), load)
  }

  /** i * (n - a) / a is i * n / a - i */
  lemma SplitExcess(i: real, n: real, a: real)
    requires a > 0.0
    ensures Over(Times(i, n - a), a) == Over(Times(i, n), a) - i
  {
    var r := Over(Times(i, n), a) - i;
    OverTimes(Times(i, n), a);
    OverTimes(Times(i, n - a), a);
    Distribute(i, n, a);
    Distribute(a, Over(Times(i, n), a), i);
    assert Times(r, a) == Times(i, n - a) by {
      Distribute(a, r, 0.0);
    }
    hide Times, Over;
    CancelFactor(Over(Times(i, n - a), a), r, a);
  }

  /** The excess is what the last server adds to the recursion. */
  lemma ExcessIsLastStep(load: real, servers: nat)
    requires 0.0 < load < servers as real
    ensures 1.0 + Excess(load, servers) == InverseBlocking(load, servers) - InverseBlocking(load, servers - 1)
  {
    hide Times, Over;
    SplitExcess(InverseBlocking(load, servers - 1), servers as real, load);
  }

  /** W * (i * (n - a) / a) == i * t, for W = t * a / (n - a) */
  lemma WeightedExcess(w: real, t: real, i: real, a: real, gap: real)
    requires a > 0.0 && gap > 0.0 && Times(w, gap) == Times(t, a)
    ensures Times(w, Over(Times(i, gap), a)) == Times(i, t)
  {
    var x := Over(Times(i, gap), a);
    OverTimes(Times(i, gap), a);
    calc {
      Times(Times(w, x), a);
      { Associate(w, x, a); }
      Times(w, Times(i, gap));
      { Associate(i, gap, w); Associate(w, Times(i, gap), 1.0); Associate(gap, w, 1.0); }
      Times(i, Times(w, gap));
      Times(i, Times(t, a));
      { Associate(i, t, a); }
      Times(Times(i, t), a);
    }
    hide Times, Over;
    CancelFactor(Times(w, x), Times(i, t), a);
  }

  /** The weighted term times the excess is the sum of the other terms. */
  lemma WeightOfWaiting(load: real, servers: nat)
    requires 0.0 < load < servers as real
    ensures Times(WaitingTerm(load, servers), Excess(load, servers)) == Terms(load, servers)
  {
    var n, gap := servers as real, servers as real - load;
    var t := Term(load, servers - 1);
    OverTimes(Times(Term(load, servers), n), gap);
    OverTimes(Times(t, load), n);
    hide Times, Over;
    WeightedExcess(WaitingTerm(load, servers), t, InverseBlocking(load, servers - 1), load, gap);
    RecursionIsSum(load, servers - 1);
  }

  /** The textbook formula is one over one plus the excess. */
  lemma FormulaIsInverse(load: real, servers: nat)
    requires 0.0 < load < servers as real
    ensures WaitProbability(load, servers) == Over(1.0, 1.0 + Excess(load, servers))
  {
    var w, s, e := WaitingTerm(load, servers), Terms(load, servers), Excess(load, servers);
    WeightOfWaiting(load, servers);
    Distribute(w, 1.0, e);
    assert Times(w, 1.0) == w && Times(1.0, s + w) == s + w;
    hide Times, Over, WaitingTerm, Terms, Excess;
    EqualQuotients(w, s + w, 1.0, 1.0 + e);
  }

  /** The program's last line, for i the recursion's result and j the one before it. */
  lemma LastLine(i: real, j: real, a: real, n: real)
    requires 0.0 < a < n && j >= 1.0 && i >= 1.0 && i - 1.0 == Over(Times(j, n), a) && i - j >= 1.0
    ensures 1.0 - Times(Over(a, n), 1.0 - Over(1.0, i)) > 0.0
    ensures Over(Over(1.0, i), 1.0 - Times(Over(a, n), 1.0 - Over(1.0, i))) == Over(1.0, i - j)
  {
    var b, u := 1.0 / i, a / n;
    var d := 1.0 - u * (1.0 - b);
    OverTimes(Times(j, n), a);
    assert b * i == 1.0 && u * n == a;
    assert (i - 1.0) * a == j * n;
    assert (u * (i - 1.0)) * n == j * n by {
      assert (u * (i - 1.0)) * n == (u * n) * (i - 1.0);
    }
    CancelProduct(u * (i - 1.0), j, n);
    assert d * i == i - u * (i * (1.0 - b));
    assert i * (1.0 - b) == i - 1.0;
    assert d * i == i - j;
    QuotientOfInverses(b, d, i, i - j);
  }

  lemma CancelProduct(x: real, y: real, z: real)
    requires z != 0.0 && x * z == y * z
    ensures x == y
  {
    assert (x - y) * z == 0.0;
  }

  lemma QuotientOfInverses(b: real, d: real, i: real, m: real)
    requires i > 0.0 && m > 0.0 && b * i == 1.0 && d * i == m
    ensures d > 0.0 && b / d == Over(1.0, m)
  {
    assert d == m / i;
    assert b * m == b * (d * i) == (b * i) * d == d;
    EqualQuotients(b, d, 1.0, m);
  }

  /** Return the Erlang C probability of waiting, computed by the stable 1/B recursion. */
  method Compute(load: real, servers: int) returns (c: real)
    ensures c == WaitProbability(load, servers)
  {
    if servers <= 0 {
      return 1.0;
    }
    if load <= 0.0 {
      return 0.0;
    }
    if load >= servers as real {
      return 1.0;
    }
    hide Times, Over;
    var inverse := 1.0;
    var server := 1;
    while server <= servers
      invariant 1 <= server <= servers + 1
      invariant inverse == InverseBlocking(load, server - 1)
    {
      inverse := 1.0 + Over(Times(inverse, server as real), load);
      server := server + 1;
    }
    FormulaIsInverse(load, servers);
    ExcessIsLastStep(load, servers);
    LastLine(inverse, InverseBlocking(load, servers - 1), load, servers as real);
    var blocking := Over(1.0, inverse);
    var utilisation := Over(load, servers as real);
    c := Over(blocking, 1.0 - Times(utilisation, 1.0 - blocking));
  }

  // ---------------------------------------------------------------- range and monotonicity

  lemma InverseIsProbability(e: real)
    requires e >= 0.0
    ensures 0.0 < Over(1.0, 1.0 + e) <= 1.0
  {
    QuotientIsPositive(1.0, 1.0 + e);
    QuotientGrows(1.0, 1.0 + e, 1.0, 1.0);
    SelfQuotient(1.0);
  }

  lemma InverseShrinks(e: real, f: real)
    requires 0.0 <= e <= f
    ensures Over(1.0, 1.0 + f) <= Over(1.0, 1.0 + e)
  {
    QuotientGrows(1.0, 1.0 + f, 1.0, 1.0 + e);
  }

  lemma WaitProbabilityIsProbability(load: real, servers: int)
    ensures 0.0 <= WaitProbability(load, servers) <= 1.0
  {
    if 0.0 < load < servers as real {
      FormulaIsInverse(load, servers);
      InverseIsProbability(Excess(load, servers));
      hide Over, WaitProbability;
    }
  }

  lemma {:induction false} RecursionFallsWithLoad(a: real, b: real, k: nat)
    requires 0.0 < a <= b
    ensures InverseBlocking(a, k) >= InverseBlocking(b, k)
  {
    if k > 0 {
      RecursionFallsWithLoad(a, b, k - 1);
      hide Times, Over;
      var x, y := InverseBlocking(a, k - 1), InverseBlocking(b, k - 1);
      ProductGrows(y, k as real, x, k as real);
      ProductIsNotNegative(y, k as real);
      QuotientGrows(Times(y, k as real), b, Times(x, k as real), a);
    }
  }

  lemma ExcessFallsWithLoad(a: real, b: real, n: nat)
    requires 0.0 < a <= b < n as real
    ensures Excess(a, n) >= Excess(b, n)
  {
    hide Times, Over;
    RecursionFallsWithLoad(a, b, n - 1);
    var x, y := InverseBlocking(a, n - 1), InverseBlocking(b, n - 1);
    ProductGrows(y, n as real - b, x, n as real - a);
    ProductIsNotNegative(y, n as real - b);
    QuotientGrows(Times(y, n as real - b), b, Times(x, n as real - a), a);
  }

  /** More load never waits less. */
  lemma WaitGrowsWithLoad(a: real, b: real, servers: int)
    requires a <= b
    ensures WaitProbability(a, servers) <= WaitProbability(b, servers)
  {
    WaitProbabilityIsProbability(a, servers);
    WaitProbabilityIsProbability(b, servers);
    if 0.0 < a && b < servers as real {
      FormulaIsInverse(a, servers);
      FormulaIsInverse(b, servers);
      ExcessFallsWithLoad(a, b, servers);
      InverseShrinks(Excess(b, servers), Excess(a, servers));
      hide Over, WaitProbability;
    } else {
      hide Over, Terms, WaitingTerm;
    }
  }

  lemma ExcessGrowsWithServers(load: real, n: nat)
    requires 0.0 < load < n as real
    ensures Excess(load, n) <= Excess(load, n + 1)
  {
    ExcessIsLastStep(load, n);
    hide Times, Over;
    var x, y := InverseBlocking(load, n - 1), InverseBlocking(load, n);
    ProductGrows(x, n as real - load, y, (n + 1) as real - load);
    ProductIsNotNegative(x, n as real - load);
    QuotientGrows(Times(x, n as real - load), load, Times(y, (n + 1) as real - load), load);
  }

  lemma OneMoreServer(load: real, servers: int)
    ensures WaitProbability(load, servers + 1) <= WaitProbability(load, servers)
  {
    WaitProbabilityIsProbability(load, servers);
    WaitProbabilityIsProbability(load, servers + 1);
    if 0.0 < load < servers as real {
      FormulaIsInverse(load, servers);
      FormulaIsInverse(load, servers + 1);
      ExcessGrowsWithServers(load, servers);
      InverseShrinks(Excess(load, servers), Excess(load, servers + 1));
      hide Over, WaitProbability;
    } else {
      hide Over, Terms, WaitingTerm;
    }
  }

  /** More servers never wait more. */
  lemma {:induction false} WaitFallsWithServers(load: real, fewer: int, more: int)
    requires fewer <= more
    ensures WaitProbability(load, more) <= WaitProbability(load, fewer)
    decreases more - fewer
  {
    if fewer < more {
      WaitFallsWithServers(load, fewer, more - 1);
      OneMoreServer(load, more - 1);
      hide WaitProbability;
    }
  }
}
