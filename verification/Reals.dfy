/** Products and quotients of reals under names of their own, so that proofs can keep them whole; and rounding. */
module Reals {
  function Times(x: real, y: real): real {
    x * y
  }

  function Over(x: real, y: real): real
    requires y != 0.0
  {
    x / y
  }

  lemma Distribute(m: real, p: real, q: real)
    ensures Times(m, p + q) == Times(m, p) + Times(m, q)
    ensures Times(m, p - q) == Times(m, p) - Times(m, q)
    ensures Times(p, m) == Times(m, p)
    ensures Times(m, -p) == -Times(m, p)
    ensures Times(m, 0.0) == 0.0
  {
  }

  lemma TimesOne(x: real)
    ensures Times(x, 1.0) == x
  {
  }

  lemma ProductIsPositive(p: real, q: real)
    requires p > 0.0 && q > 0.0
    ensures Times(p, q) > 0.0
  {
  }

  lemma ProductIsNotNegative(x: real, y: real)
    requires x >= 0.0 && y >= 0.0
    ensures Times(x, y) >= 0.0
  {
  }

  lemma QuotientIsNotNegative(x: real, y: real)
    requires x >= 0.0 && y > 0.0
    ensures Over(x, y) >= 0.0
  {
  }

  lemma QuotientIsPositive(x: real, y: real)
    requires x > 0.0 && y > 0.0
    ensures Over(x, y) > 0.0
  {
  }

  lemma OverTimes(x: real, y: real)
    requires y != 0.0
    ensures Times(Over(x, y), y) == x
  {
  }

  lemma Associate(x: real, y: real, z: real)
    ensures Times(Times(x, y), z) == Times(x, Times(y, z))
    ensures Times(x, y) == Times(y, x)
  {
  }

  lemma CancelFactor(x: real, y: real, z: real)
    requires z != 0.0 && Times(x, z) == Times(y, z)
    ensures x == y
  {
  }

  lemma Shuffle(x: real, y: real, a: real, b: real)
    ensures Times(Times(x, a), Times(y, b)) == Times(Times(x, y), Times(a, b))
  {
  }

  lemma QuotientBetween(c: real, v: real, lo: real, hi: real)
    requires v > 0.0 && Times(lo, v) <= c <= Times(hi, v)
    ensures lo <= Over(c, v) <= hi
  {
    var q := c / v;
    assert q * v == c;
    assert (q - lo) * v >= 0.0 && (hi - q) * v >= 0.0;
  }

  lemma QuotientBounds(rise: real, run: real, lo: real, hi: real)
    requires run > 0.0 && lo <= Over(rise, run) <= hi
    ensures Times(lo, run) <= rise <= Times(hi, run)
  {
    var q := rise / run;
    assert q * run == rise;
    assert (q - lo) * run >= 0.0 && (hi - q) * run >= 0.0;
  }

  lemma ProductGrows(x: real, y: real, p: real, q: real)
    requires 0.0 <= x <= p && 0.0 <= y <= q
    ensures Times(x, y) <= Times(p, q)
  {
    assert (p - x) * y >= 0.0;
    assert p * (q - y) >= 0.0;
  }

  lemma QuotientGrows(x: real, y: real, p: real, q: real)
    requires 0.0 <= x <= p && 0.0 < q <= y
    ensures Over(x, y) <= Over(p, q)
  {
    OverTimes(x, y);
    OverTimes(p, q);
    QuotientIsNotNegative(p, q);
    ProductGrows(Over(p, q), q, Over(p, q), y);
    hide Over;
    if Over(x, y) > Over(p, q) {
      ProductIsPositive(Over(x, y) - Over(p, q), y);
    }
  }

  /** Cross multiplication. */
  lemma EqualQuotients(x: real, y: real, p: real, q: real)
    requires y != 0.0 && q != 0.0 && Times(x, q) == Times(p, y)
    ensures Over(x, y) == Over(p, q)
  {
    var u, v := x / y, p / q;
    assert x == u * y && p == v * q;
    assert u * y * q == v * q * y;
    assert (u - v) * (y * q) == 0.0;
  }

  lemma SelfQuotient(x: real)
    requires x != 0.0
    ensures Over(x, x) == 1.0
  {
  }

  lemma ScaledAtMost(c: real, d: real, r: real, v: real, g: real)
    requires v > 0.0 && g >= 0.0 && r >= 0.0 && c <= Times(r, d) && Times(Over(d, v), g) <= 1.0
    ensures Times(Over(c, v), g) <= r
  {
    var p, q := c / v, d / v;
    assert p * v == c && q * v == d;
    assert (r * q - p) * v >= 0.0;
    assert p <= r * q;
    assert (r * q - p) * g >= 0.0 && r * (1.0 - q * g) >= 0.0;
  }

  lemma ScaledExactly(d: real, r: real, v: real, g: real)
    requires v != 0.0
    ensures Times(Over(Times(r, d), v), g) == Times(r, Times(Over(d, v), g))
  {
    var q := d / v;
    assert q * v == d;
    assert (r * d) / v == r * q;
  }

  /** A count large enough for its share to pass r. */
  function Enough(s: real, v: real, g: real, r: real): (m: nat)
    requires s > 0.0 && v > 0.0 && g > 0.0 && r > 0.0
    ensures Times(Over(Times(s, m as real), v), g) > r
  {
    QuotientIsPositive(s, v);
    ProductIsPositive(Over(s, v), g);
    var step := Times(Over(s, v), g);
    QuotientIsNotNegative(r, step);
    PastQuotient(s, v, g, r, step, Over(r, step).Floor + 1);
    Over(r, step).Floor + 1
  }

  lemma PastQuotient(s: real, v: real, g: real, r: real, step: real, m: nat)
    requires v != 0.0 && step == Times(Over(s, v), g) && step > 0.0 && m as real > Over(r, step)
    ensures Times(Over(Times(s, m as real), v), g) > r
  {
    ScaledExactly(s, m as real, v, g);
    Associate(s, m as real, 0.0);
    OverTimes(r, step);
    ProductIsPositive(m as real - Over(r, step), step);
    Associate(m as real - Over(r, step), step, 0.0);
    Distribute(step, m as real, Over(r, step));
    Associate(m as real, step, 0.0);
    Associate(Over(r, step), step, 0.0);
  }

  function Clamp(value: real, low: real, high: real): real {
    var v := if value < high then value else high;
    if low > v then low else v
  }

  /** Round to the nearest integer, halves to the even one. */
  function RoundHalfEven(x: real): int {
    var f := x.Floor;
    var rest := x - f as real;
    if rest < 0.5 || (rest == 0.5 && f % 2 == 0) then f else f + 1
  }

  function Round2(x: real): real {
    RoundHalfEven(x * 100.0) as real / 100.0
  }

  lemma RoundingKeepsOrder(x: real, y: real)
    requires x <= y
    ensures RoundHalfEven(x) <= RoundHalfEven(y)
  {
  }

  /** Rounding to cents moves a figure by half a cent at most. */
  lemma Round2IsNear(x: real)
    ensures -0.005 <= Round2(x) - x <= 0.005
  {
    var r := RoundHalfEven(x * 100.0) as real;
    assert -0.5 <= r - x * 100.0 <= 0.5;
    hide RoundHalfEven;
  }

  lemma Round2KeepsRange(x: real, top: int)
    ensures x >= 0.0 ==> Round2(x) >= 0.0
    ensures x <= top as real ==> Round2(x) <= top as real
  {
    if x >= 0.0 {
      RoundingKeepsOrder(0.0, x * 100.0);
    }
    if x <= top as real {
      RoundingKeepsOrder(x * 100.0, (top * 100) as real);
    }
  }

  function Round1(x: real): real {
    RoundHalfEven(x * 10.0) as real / 10.0
  }

  lemma Round1KeepsSign(x: real)
    requires x >= 0.0
    ensures Round1(x) >= 0.0
  {
    RoundingKeepsOrder(0.0, x * 10.0);
  }
}
