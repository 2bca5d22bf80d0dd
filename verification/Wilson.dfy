/** The Wilson score interval over exact reals. The square root is a nonnegative `s` whose square is given. */
module Wilson {
  import opened Arithmetic

  function MaxReal(a: real, b: real): real { if a < b then b else a }

  function MinReal(a: real, b: real): real { if a < b then a else b }

  /** The variance under the root: p(1-p)/n + z*z/(4*n*n). */
  function Variance(p: real, n: real, z: real): real
    requires n > 0.0
  {
    p * (1.0 - p) / n + z * z / (4.0 * n * n)
  }

  predicate IsRoot(s: real, x: real) {
    s >= 0.0 && s * s == x
  }

  function Centre(p: real, n: real, z: real): real
    requires n > 0.0
  {
    assert z * z / n >= 0.0 by { Quotient(z * z, n); }
    (p + z * z / (2.0 * n)) / (1.0 + z * z / n)
  }

  function Spread(n: real, z: real, s: real): real
    requires n > 0.0
  {
    assert z * z / n >= 0.0 by { Quotient(z * z, n); }
    z * s / (1.0 + z * z / n)
  }

  /** The interval as computed: nothing to say without trials, else clamped to the unit scale. */
  function Interval(k: int, n: int, z: real, s: real): (real, real) {
    if n <= 0 then (0.0, 0.0)
    else
      var (p, m) := (k as real / n as real, n as real);
      (MaxReal(0.0, Centre(p, m, z) - Spread(m, z, s)), MinReal(1.0, Centre(p, m, z) + Spread(m, z, s)))
  }

  lemma Quotient(a: real, b: real)
    requires a >= 0.0 && b > 0.0
    ensures a / b >= 0.0
  {}

  lemma Times(a: real, b: real)
    requires a >= 0.0 && b >= 0.0
    ensures a * b >= 0.0
  {}

  lemma PositiveTimes(a: real, b: real)
    requires a > 0.0 && b > 0.0
    ensures a * b > 0.0
  {}

  lemma Square(a: real)
    ensures a * a >= 0.0
  {}

  lemma RootOrder(a: real, b: real)
    requires b >= 0.0 && a * a <= b * b
    ensures -b <= a <= b
  {
    assert (-a) * (-a) == a * a;
    if a > b {
      Longer(b, a);
    } else if -a > b {
      Longer(b, -a);
    }
  }

  lemma Longer(a: real, b: real)
    requires 0.0 <= a < b
    ensures a * a < b * b
  {
    assert b * b - a * a == (b - a) * (b + a);
    PositiveTimes(b - a, b + a);
  }

  lemma Halved(x: real, n: real)
    requires n > 0.0
    ensures x / (2.0 * n) == x / n / 2.0
  {
    Cancel(x, 2.0 * n);
    Cancel(x, n);
    SameFactor(x / (2.0 * n), x / n / 2.0, 2.0 * n);
  }

  lemma PositiveSquare(n: real, f: real)
    requires n > 0.0 && f == 4.0 * n * n
    ensures f > 0.0
  {
    var a := 4.0 * n;
    PositiveTimes(a, n);
    assert f == a * n;
  }

  lemma QuarteredBy(x: real, n: real, f: real)
    requires n > 0.0 && f > 0.0 && f == 4.0 * n * n
    ensures x / f == x / n / n / 4.0
  {
    var q := x / n / n;
    Cancel(x, n);
    Cancel(x / n, n);
    Cancel(x, f);
    assert q / 4.0 * f == q * n * n;
    SameFactor(x / f, q / 4.0, f);
  }

  lemma Quartered(x: real, n: real)
    requires n > 0.0
    ensures 4.0 * n * n > 0.0 && x / (4.0 * n * n) == x / n / n / 4.0
  {
    var f := 4.0 * n * n;
    PositiveSquare(n, f);
    QuarteredBy(x, n, f);
  }

  lemma Reorder(x: real, v: real, n: real)
    requires n != 0.0
    ensures x * (v / n) == x / n * v
  {
    Cancel(x, n);
    Cancel(v, n);
    var w, u := v / n, x / n;
    assert u * n * w == u * (w * n);
  }

  lemma Expand(x: real, v: real, n: real)
    requires n > 0.0
    ensures 4.0 * n * n > 0.0 && x * (v / n + x / (4.0 * n * n)) == x / n * v + x / n * (x / n) / 4.0
  {
    Quartered(x, n);
    Reorder(x, v, n);
    Reorder(x, x / n, n);
    var u, w := x / n, v / n;
    assert x * (w + u / n / 4.0) == x * w + x * (u / n) / 4.0;
  }

  /** Everything below is said of `u = z*z/n`, `d = 1 + u`, and the scaled ends `a - b` and `a + b`. */
  ghost predicate Scaled(p: real, u: real, d: real, a: real, b: real) {
    && 0.0 <= p <= 1.0 && u >= 0.0 && d == 1.0 + u && a == p + u / 2.0
    && b >= 0.0 && b * b == u * (p * (1.0 - p)) + u * u / 4.0
  }

  lemma ScaledEnds(p: real, n: real, z: real, s: real) returns (u: real, d: real, a: real, b: real)
    requires n > 0.0 && z >= 0.0 && 0.0 <= p <= 1.0 && IsRoot(s, Variance(p, n, z))
    ensures u == z * z / n && Scaled(p, u, d, a, b)
    ensures Centre(p, n, z) == a / d && Spread(n, z, s) == b / d
  {
    Square(z);
    Quotient(z * z, n);
    u := z * z / n;
    d := 1.0 + u;
    a := p + u / 2.0;
    b := z * s;
    Halved(z * z, n);
    Times(z, s);
    Expand(z * z, p * (1.0 - p), n);
    SquareOfProduct(z, s);
  }

  lemma SquareOfProduct(z: real, s: real)
    ensures z * s * (z * s) == z * z * (s * s)
  {}

  lemma IdentityAtZero(p: real, u: real)
    ensures (p + u / 2.0) * (p + u / 2.0) - (u * (p * (1.0 - p)) + u * u / 4.0) == p * p * (1.0 + u)
  {}

  lemma IdentityAtRate(p: real, u: real)
    ensures (u * (p * (1.0 - p)) + u * u / 4.0) - u * (0.5 - p) * (u * (0.5 - p)) == u * (p * (1.0 - p)) * (1.0 + u)
  {}

  /** The ends keep their order with 0, the rate and 1. */
  lemma ScaledOrder(p: real, u: real, d: real, a: real, b: real)
    requires Scaled(p, u, d, a, b)
    ensures 0.0 <= a - b <= p * d <= a + b <= d
    ensures a * a - b * b == p * p * d
  {
    AboveZero(p, u, d, a, b);
    assert (1.0 - p) * (1.0 - (1.0 - p)) == p * (1.0 - p);
    AboveZero(1.0 - p, u, d, d - a, b);
    AroundRate(p, u, d, a, b);
  }

  lemma AboveZero(p: real, u: real, d: real, a: real, b: real)
    requires Scaled(p, u, d, a, b)
    ensures b <= a && a * a - b * b == p * p * d
  {
    IdentityAtZero(p, u);
    Square(p);
    Times(p * p, d);
    RootOrder(b, a);
  }

  lemma AroundRate(p: real, u: real, d: real, a: real, b: real)
    requires Scaled(p, u, d, a, b)
    ensures a - b <= p * d <= a + b
  {
    IdentityAtRate(p, u);
    Times(p, 1.0 - p);
    Times(u, p * (1.0 - p));
    Times(u * (p * (1.0 - p)), d);
    var g := u * (0.5 - p);
    assert a - p * d == g;
    RootOrder(g, b);
  }

  // ---- What the interval is ---------------------------------------------------

  /** The unclamped ends of a proper interval. */
  predicate Ends(k: int, n: int, z: real, s: real, lo: real, hi: real)
    requires n > 0
  {
    var (p, m) := (k as real / n as real, n as real);
    && 0 <= k <= n && z >= 0.0 && IsRoot(s, Variance(p, m, z))
    && lo == Centre(p, m, z) - Spread(m, z, s) && hi == Centre(p, m, z) + Spread(m, z, s)
  }

  lemma RateIsFraction(k: int, n: int)
    requires n > 0 && 0 <= k <= n
    ensures 0.0 <= k as real / n as real <= 1.0
  {
    AtLeast(k as real, 0.0, n as real);
    AtMost(k as real, 1.0, n as real);
  }

  lemma AtMost(x: real, y: real, d: real)
    requires d > 0.0 && x <= y * d
    ensures x / d <= y
  {
    Cancel(x, d);
    DescaleReal(x / d, y, d);
  }

  lemma AtLeast(x: real, y: real, d: real)
    requires d > 0.0 && y * d <= x
    ensures y <= x / d
  {
    Cancel(x, d);
    DescaleReal(y, x / d, d);
  }

  lemma SelfQuotient(d: real)
    requires d != 0.0
    ensures d / d == 1.0
  {
    Cancel(d, d);
    SameFactor(d / d, 1.0, d);
  }

  /** The ends already lie on the unit scale with the rate between them: both clamps are no-ops. */
  lemma ClampsAreNoOps(k: int, n: int, z: real, s: real, lo: real, hi: real)
    requires n > 0 && Ends(k, n, z, s, lo, hi)
    ensures 0.0 <= lo <= k as real / n as real <= hi <= 1.0
    ensures Interval(k, n, z, s) == (lo, hi)
  {
    hide Scaled, Centre, Spread, Variance;
    var (p, m) := (k as real / n as real, n as real);
    RateIsFraction(k, n);
    var u, d, a, b := ScaledEnds(p, m, z, s);
    ScaledOrder(p, u, d, a, b);
    UnscaledOrder(p, d, a, b);
  }

  lemma UnscaledOrder(p: real, d: real, a: real, b: real)
    requires d > 0.0 && 0.0 <= a - b <= p * d <= a + b <= d
    ensures 0.0 <= a / d - b / d <= p <= a / d + b / d <= 1.0
  {
    Split(a, b, d);
    AtLeast(a - b, 0.0, d);
    AtMost(a - b, p, d);
    AtLeast(a + b, p, d);
    AtMost(a + b, 1.0, d);
  }

  lemma Split(a: real, b: real, d: real)
    requires d > 0.0
    ensures (a - b) / d == a / d - b / d && (a + b) / d == a / d + b / d
  {
    Cancel(a, d);
    Cancel(b, d);
    Cancel(a - b, d);
    Cancel(a + b, d);
    SameFactor((a - b) / d, a / d - b / d, d);
    SameFactor((a + b) / d, a / d + b / d, d);
  }

  /** How far a proposed rate `x` is beyond what `n` trials with rate `p` allow at `z`: the score test
      rejects `x` exactly when this is positive. */
  function Excess(x: real, p: real, n: real, z: real): real
    requires n > 0.0
  {
    (x - p) * (x - p) - z * z * x * (1.0 - x) / n
  }

  lemma ExcessFactors(x: real, p: real, n: real, z: real, u: real, d: real, a: real, b: real)
    requires n > 0.0 && u == z * z / n && Scaled(p, u, d, a, b)
    ensures Excess(x, p, n, z) == d * (x - (a / d - b / d)) * (x - (a / d + b / d))
  {
    hide Scaled;
    ScaledOrderFacts(p, u, d, a, b);
    var (c, w) := (a / d, b / d);
    Cancel(a, d);
    Cancel(b, d);
    Reorder(z * z, x * (1.0 - x), n);
    assert z * z * x * (1.0 - x) == z * z * (x * (1.0 - x));
    Regroup(z * z, x * (1.0 - x), n);
    Expanded(x, p, u, d, c, w);
  }

  lemma Regroup(x: real, v: real, n: real)
    requires n != 0.0
    ensures x * v / n == x / n * v
  {
    Cancel(x, n);
    Cancel(x * v, n);
    var u := x / n;
    assert u * v * n == u * n * v;
    SameFactor(x * v / n, u * v, n);
  }

  lemma ScaledOrderFacts(p: real, u: real, d: real, a: real, b: real)
    requires Scaled(p, u, d, a, b)
    ensures d >= 1.0 && d == 1.0 + u && a == p + u / 2.0 && a * a - b * b == p * p * d
  {
    ScaledOrder(p, u, d, a, b);
  }

  lemma Expanded(x: real, p: real, u: real, d: real, c: real, w: real)
    requires d >= 1.0 && d == 1.0 + u && c * d == p + u / 2.0
    requires c * d * (c * d) - w * d * (w * d) == p * p * d
    ensures (x - p) * (x - p) - u * (x * (1.0 - x)) == d * (x - (c - w)) * (x - (c + w))
  {
    assert c * d * (c * d) - w * d * (w * d) == (c * c - w * w) * d * d;
    SameFactor((c * c - w * w) * d, p * p, d);
    calc {
      d * (x - (c - w)) * (x - (c + w));
      d * x * x - 2.0 * (c * d) * x + (c * c - w * w) * d;
      d * x * x - (2.0 * p + u) * x + p * p;
      (x - p) * (x - p) - u * (x * (1.0 - x));
    }
  }

  lemma FactoredTest(x: real, p: real, n: real, z: real, s: real, lo: real, hi: real) returns (d: real)
    requires n > 0.0 && z >= 0.0 && 0.0 <= p <= 1.0 && IsRoot(s, Variance(p, n, z))
    requires lo == Centre(p, n, z) - Spread(n, z, s) && hi == Centre(p, n, z) + Spread(n, z, s)
    ensures d >= 1.0 && Excess(x, p, n, z) == d * (x - lo) * (x - hi)
  {
    hide Scaled, Centre, Spread, Variance, Excess, IsRoot;
    var u, a, b;
    u, d, a, b := ScaledEnds(p, n, z, s);
    ExcessFactors(x, p, n, z, u, d, a, b);
    ScaledOrderFacts(p, u, d, a, b);
  }

  /** The interval is the set of rates the score test lets stand, and its ends are the test's two roots. */
  lemma IntervalIsScoreTest(k: int, n: int, z: real, s: real, lo: real, hi: real, x: real)
    requires n > 0 && Ends(k, n, z, s, lo, hi)
    ensures lo <= x <= hi <==> Excess(x, k as real / n as real, n as real, z) <= 0.0
    ensures Excess(x, k as real / n as real, n as real, z) == 0.0 <==> x == lo || x == hi
  {
    hide Centre, Spread, Variance, Excess, IsRoot, Interval;
    ClampsAreNoOps(k, n, z, s, lo, hi);
    RateIsFraction(k, n);
    var (p, m) := (k as real / n as real, n as real);
    var d := FactoredTest(x, p, m, z, s, lo, hi);
    Judge(Excess(x, p, m, z), d, lo, hi, x);
  }

  lemma Judge(e: real, d: real, lo: real, hi: real, x: real)
    requires d >= 1.0 && lo <= hi && e == d * (x - lo) * (x - hi)
    ensures lo <= x <= hi <==> e <= 0.0
    ensures e == 0.0 <==> x == lo || x == hi
  {
    Signs(d, x - lo, x - hi);
  }

  lemma Signs(d: real, f: real, g: real)
    requires d >= 1.0 && f >= g
    ensures d * f * g <= 0.0 <==> g <= 0.0 <= f
    ensures d * f * g == 0.0 <==> f == 0.0 || g == 0.0
  {
    assert d * f * g == d * (f * g);
    if g > 0.0 {
      PositiveTimes(f, g);
      PositiveTimes(d, f * g);
    } else if f < 0.0 {
      PositiveTimes(-f, -g);
      PositiveTimes(d, f * g);
    } else {
      Times(f, -g);
      Times(d, f * -g);
      if f > 0.0 && g < 0.0 {
        PositiveTimes(f, -g);
        PositiveTimes(d, f * -g);
      }
    }
  }

  /** Counting failures in place of successes mirrors the interval. */
  lemma MirrorImage(k: int, n: int, z: real, s: real)
    requires n > 0 && 0 <= k <= n && z >= 0.0 && IsRoot(s, Variance(k as real / n as real, n as real, z))
    ensures IsRoot(s, Variance((n - k) as real / n as real, n as real, z))
    ensures var (lo, hi) := Interval(k, n, z, s); Interval(n - k, n, z, s) == (1.0 - hi, 1.0 - lo)
  {
    hide Centre, Spread, Variance, IsRoot;
    var p := k as real / n as real;
    MirrorRate(k, n);
    MirrorVariance(p, n as real, z);
    MirrorCentre(p, n as real, z);
  }

  lemma MirrorRate(k: int, n: int)
    requires n > 0
    ensures (n - k) as real / n as real == 1.0 - k as real / n as real
  {
    var m := n as real;
    Split(m, k as real, m);
    SelfQuotient(m);
  }

  lemma MirrorVariance(p: real, n: real, z: real)
    requires n > 0.0
    ensures Variance(1.0 - p, n, z) == Variance(p, n, z)
  {
    assert (1.0 - p) * (1.0 - (1.0 - p)) == p * (1.0 - p);
  }

  lemma MirrorCentre(p: real, n: real, z: real)
    requires n > 0.0
    ensures Centre(1.0 - p, n, z) == 1.0 - Centre(p, n, z)
  {
    Square(z);
    Quotient(z * z, n);
    Halved(z * z, n);
    var u := z * z / n;
    var d := 1.0 + u;
    Split(p + u / 2.0, 1.0 - p + u / 2.0, d);
    SelfQuotient(d);
  }
}
