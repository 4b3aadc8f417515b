/** Comparing two classifiers' tallies by their 95% Wilson score intervals (scripts/decide-eval/main.go),
    floats as reals and the square root as a function with its law. */
module Wilson {
  const Z := 1.96

  datatype Metric = Metric(correct: nat, total: nat)

  datatype Relation = Tie | Better | Worse

  /** A tally: no more right than asked. */
  predicate Tally(m: Metric) {
    m.correct <= m.total
  }

  ghost predicate Root(sqrt: real -> real) {
    forall x | x >= 0.0 :: sqrt(x) >= 0.0 && sqrt(x) * sqrt(x) == x
  }

  function Max(a: real, b: real): real { if a < b then b else a }
  function Min(a: real, b: real): real { if a < b then a else b }

  function Share(m: Metric): real
    requires m.total > 0
  {
    m.correct as real / m.total as real
  }

  function Center(p: real, n: real): real
    requires n > 0.0
  {
    assert 1.0 + Z * Z / n > 0.0;
    (p + Z * Z / (2.0 * n)) / (1.0 + Z * Z / n)
  }

  function Radicand(p: real, n: real): real
    requires n > 0.0
  {
    assert 4.0 * n * n > 0.0;
    p * (1.0 - p) / n + Z * Z / (4.0 * n * n)
  }

  function Half(sqrt: real -> real, p: real, n: real): real
    requires n > 0.0
  {
    assert 1.0 + Z * Z / n > 0.0;
    Z * sqrt(Radicand(p, n)) / (1.0 + Z * Z / n)
  }

  /** wilson. */
  function Interval(sqrt: real -> real, m: Metric): (real, real) {
    if m.total == 0 then (0.0, 1.0)
    else
      var n, p := m.total as real, Share(m);
      (Max(0.0, Center(p, n) - Half(sqrt, p, n)), Min(1.0, Center(p, n) + Half(sqrt, p, n)))
  }

  function Percent(sqrt: real -> real, m: Metric): (real, real) {
    var i := Interval(sqrt, m);
    (i.0 * 100.0, i.1 * 100.0)
  }

  function Accuracy(m: Metric): real {
    if m.total == 0 then 0.0 else Share(m) * 100.0
  }

  predicate Overlaps(sqrt: real -> real, a: Metric, b: Metric) {
    var i, j := Percent(sqrt, a), Percent(sqrt, b);
    i.0 <= j.1 && j.0 <= i.1
  }

  function Compare(sqrt: real -> real, a: Metric, b: Metric): Relation {
    if Overlaps(sqrt, a, b) then Tie
    else if Accuracy(a) > Accuracy(b) then Better
    else Worse
  }

  // ---------------------------------------------------------------- the score test

  /** The tally does not reject the rate `q`: it lies within 1.96 standard errors of it, the error being
      that of `q` itself.  An empty tally rejects none. */
  predicate Compatible(m: Metric, q: real) {
    && 0.0 <= q <= 1.0
    && (m.total == 0 || Passes(m, q))
  }

  predicate Passes(m: Metric, q: real)
    requires m.total > 0
  {
    m.total as real * (Share(m) - q) * (Share(m) - q) <= 1.96 * 1.96 * q * (1.0 - q)
  }

  /** With k = z*z/n and h the scaled root, the test is whether q lies within h of the center, scaled. */
  lemma TestIsDistance(p: real, k: real, h: real, q: real)
    requires h * h == k * p * (1.0 - p) + k * k / 4.0
    ensures ((1.0 + k) * q - (p + k / 2.0)) * ((1.0 + k) * q - (p + k / 2.0)) - h * h
            == (1.0 + k) * ((p - q) * (p - q) - k * q * (1.0 - q))
  {
    var d := 1.0 + k;
    var a := p + k / 2.0;
    assert (d * q - a) * (d * q - a) == d * (d * q * q) - 2.0 * a * (d * q) + a * a;
    assert a * a == p * p + p * k + k * k / 4.0;
    assert a * a - h * h == d * p * p;
    assert d * (d * q * q) - 2.0 * a * (d * q) + d * p * p == d * (d * q * q - 2.0 * a * q + p * p);
    assert d * q * q - 2.0 * a * q + p * p == (p - q) * (p - q) - k * q * (1.0 - q);
  }

  lemma SquareOrder(x: real, h: real)
    requires h >= 0.0
    ensures x * x <= h * h <==> -h <= x <= h
  {
    if x > h { assert x * x > h * h; }
    if x < -h { assert (-x) * (-x) > h * h; }
    if -h <= x <= h {
      if x >= 0.0 { assert x * x <= h * x <= h * h; } else { assert (-x) * (-x) <= h * (-x) <= h * h; }
    }
  }

  function K(n: real): real
    requires n > 0.0
  {
    Z * Z / n
  }

  /** The interval's ends before clamping, over the common denominator. */
  lemma Scaled(sqrt: real -> real, p: real, n: real) returns (h: real)
    requires Root(sqrt) && n > 0.0 && 0.0 <= p <= 1.0
    ensures h >= 0.0 && K(n) > 0.0
    ensures h * h == K(n) * p * (1.0 - p) + K(n) * K(n) / 4.0
    ensures Center(p, n) * (1.0 + K(n)) == p + K(n) / 2.0
    ensures Half(sqrt, p, n) * (1.0 + K(n)) == h
  {
    h := Z * sqrt(Radicand(p, n));
    RadicandScaled(p, n);
    RadicandPositive(p, n);
    RootScaled(sqrt(Radicand(p, n)), Radicand(p, n));
    CenterScaled(p, n);
    DivideBack(h, 1.0 + K(n));
  }

  lemma RadicandPositive(p: real, n: real)
    requires n > 0.0 && 0.0 <= p <= 1.0
    ensures K(n) > 0.0 && Radicand(p, n) >= 0.0
  {
    var k := K(n);
    RadicandScaled(p, n);
    Product(p, 1.0 - p);
    Product(k, p * (1.0 - p));
    assert k * p * (1.0 - p) == k * (p * (1.0 - p));
    Product(k, k);
    OrderScaled(0.0, Radicand(p, n), Z * Z);
  }

  lemma RootScaled(root: real, r: real)
    requires root >= 0.0 && root * root == r
    ensures Z * root >= 0.0 && (Z * root) * (Z * root) == Z * Z * r
  {
    assert (Z * root) * (Z * root) == Z * Z * (root * root);
  }

  lemma CenterScaled(p: real, n: real)
    requires n > 0.0
    ensures K(n) > 0.0 && Center(p, n) * (1.0 + K(n)) == p + K(n) / 2.0
  {
    HalfOf(Z * Z, n);
    DivideBack(p + K(n) / 2.0, 1.0 + K(n));
  }

  lemma HalfOf(x: real, n: real)
    requires n > 0.0
    ensures x / (2.0 * n) == x / n / 2.0
  {
  }

  lemma DivideBack(x: real, d: real)
    requires d > 0.0
    ensures x / d * d == x
  {
  }

  lemma RadicandScaled(p: real, n: real)
    requires n > 0.0
    ensures Z * Z * Radicand(p, n) == K(n) * p * (1.0 - p) + K(n) * K(n) / 4.0
  {
    var k := K(n);
    assert k * n == Z * Z;
    var x, y := p * (1.0 - p) / n, Z * Z / (4.0 * n * n);
    assert Z * Z * x == k * n * x;
    assert n * x == p * (1.0 - p);
    assert 4.0 * n * n * y == Z * Z by { DivideBack(Z * Z, 4.0 * n * n); }
    assert Z * Z * y == k * (n * y);
    assert 4.0 * n * (n * y) == k * n;
    assert 4.0 * (n * y) == k by { CancelFactor(4.0 * (n * y), k, n); }
  }

  lemma CancelFactor(a: real, b: real, n: real)
    requires n > 0.0 && a * n == b * n
    ensures a == b
  {
    assert a == a * n / n && b == b * n / n;
  }

  lemma Product(a: real, b: real)
    requires a >= 0.0 && b >= 0.0
    ensures a * b >= 0.0
  {
  }

  function Lo(sqrt: real -> real, m: Metric): real
    requires m.total > 0
  {
    Center(Share(m), m.total as real) - Half(sqrt, Share(m), m.total as real)
  }

  function Hi(sqrt: real -> real, m: Metric): real
    requires m.total > 0
  {
    Center(Share(m), m.total as real) + Half(sqrt, Share(m), m.total as real)
  }

  lemma ShareInRange(m: Metric)
    requires Tally(m) && m.total > 0
    ensures 0.0 <= Share(m) <= 1.0
  {
    var n, c := m.total as real, m.correct as real;
    DivideBack(c, n);
    assert Share(m) * n == c;
    OrderScaled(0.0, Share(m), n);
    OrderScaled(Share(m), 1.0, n);
  }

  lemma OrderScaled(x: real, y: real, d: real)
    requires d > 0.0
    ensures x <= y <==> x * d <= y * d
  {
    if x <= y { Product(y - x, d); }
    if y < x {
      Product(x - y, d);
      if x * d == y * d { CancelFactor(x, y, d); }
    }
  }

  /** The two ends, scaled: h on either side of the center. */
  ghost predicate Ends(p: real, k: real, h: real, lo: real, hi: real) {
    && 0.0 <= p <= 1.0 && k > 0.0 && h >= 0.0
    && h * h == k * p * (1.0 - p) + k * k / 4.0
    && lo * (1.0 + k) == p + k / 2.0 - h && hi * (1.0 + k) == p + k / 2.0 + h
  }

  lemma Sides(lo: real, hi: real, q: real, d: real, a: real, h: real)
    requires d > 0.0 && lo * d == a - h && hi * d == a + h
    ensures lo <= q <= hi <==> -h <= d * q - a <= h
  {
    OrderScaled(lo, q, d);
    OrderScaled(q, hi, d);
  }

  lemma Signs(x: real, h: real, d: real, test: real)
    requires d > 0.0 && h >= 0.0 && x * x - h * h == d * test
    ensures -h <= x <= h <==> test <= 0.0
  {
    SquareOrder(x, h);
    OrderScaled(test, 0.0, d);
  }

  lemma BetweenEnds(p: real, k: real, h: real, lo: real, hi: real, q: real)
    requires Ends(p, k, h, lo, hi)
    ensures lo <= q <= hi <==> (p - q) * (p - q) - k * q * (1.0 - q) <= 0.0
  {
    var d, a := 1.0 + k, p + k / 2.0;
    Sides(lo, hi, q, d, a, h);
    TestIsDistance(p, k, h, q);
    Signs(d * q - a, h, d, (p - q) * (p - q) - k * q * (1.0 - q));
  }

  lemma EndsBounds(p: real, k: real, h: real, lo: real, hi: real)
    requires Ends(p, k, h, lo, hi)
    ensures 0.0 <= lo <= p <= hi <= 1.0
  {
    BetweenEnds(p, k, h, lo, hi, p);
    Product(p, 1.0 - p);
    Product(k, p * (1.0 - p));
    assert k * p * (1.0 - p) == k * (p * (1.0 - p));
    LowEnd(p, k, h, lo, hi);
    HighEnd(p, k, h, lo, hi);
  }

  lemma Above(h: real, a: real, d: real, test: real)
    requires a >= 0.0 && a * a - h * h == d * test && d > 0.0 && test >= 0.0
    ensures h <= a
  {
    Product(d, test);
    SquareOrder(h, a);
  }

  lemma LowEnd(p: real, k: real, h: real, lo: real, hi: real)
    requires Ends(p, k, h, lo, hi)
    ensures 0.0 <= lo
  {
    var d, a := 1.0 + k, p + k / 2.0;
    TestIsDistance(p, k, h, 0.0);
    Product(p, p);
    Above(h, a, d, p * p);
    OrderScaled(0.0, lo, d);
  }

  lemma HighEnd(p: real, k: real, h: real, lo: real, hi: real)
    requires Ends(p, k, h, lo, hi)
    ensures hi <= 1.0
  {
    var d, a, test := 1.0 + k, p + k / 2.0, (1.0 - p) * (1.0 - p);
    TestIsDistance(p, k, h, 1.0);
    Product(1.0 - p, 1.0 - p);
    Squares(d - a, h, d, p, k);
    Above(h, d - a, d, test);
    OrderScaled(hi, 1.0, d);
  }

  /** The distance at the rate 1, with its signs turned. */
  lemma Squares(x: real, h: real, d: real, p: real, k: real)
    requires (d * 1.0 - (p + k / 2.0)) * (d * 1.0 - (p + k / 2.0)) - h * h
             == d * ((p - 1.0) * (p - 1.0) - k * 1.0 * (1.0 - 1.0))
    requires x == d - (p + k / 2.0)
    ensures x * x - h * h == d * ((1.0 - p) * (1.0 - p))
  {
    assert (p - 1.0) * (p - 1.0) == (1.0 - p) * (1.0 - p);
  }

  lemma MetricEnds(sqrt: real -> real, m: Metric) returns (h: real)
    requires Root(sqrt) && Tally(m) && m.total > 0
    ensures Ends(Share(m), K(m.total as real), h, Lo(sqrt, m), Hi(sqrt, m))
  {
    ShareInRange(m);
    h := Scaled(sqrt, Share(m), m.total as real);
  }

  /** Before clamping, the interval is the set of rates the score test does not reject. */
  lemma EndsInvertTest(sqrt: real -> real, m: Metric, q: real)
    requires Root(sqrt) && Tally(m) && m.total > 0
    ensures Lo(sqrt, m) <= q <= Hi(sqrt, m) <==> Passes(m, q)
  {
    var h := MetricEnds(sqrt, m);
    var n, p := m.total as real, Share(m);
    BetweenEnds(p, K(n), h, Lo(sqrt, m), Hi(sqrt, m), q);
    TestScaled(p, q, n);
  }

  lemma TestScaled(p: real, q: real, n: real)
    requires n > 0.0
    ensures (p - q) * (p - q) - K(n) * q * (1.0 - q) <= 0.0 <==> n * (p - q) * (p - q) <= Z * Z * q * (1.0 - q)
  {
    var k, x, y := K(n), (p - q) * (p - q), q * (1.0 - q);
    assert k * n == Z * Z;
    assert n * (p - q) * (p - q) == x * n;
    assert Z * Z * q * (1.0 - q) == k * y * n;
    assert k * q * (1.0 - q) == k * y;
    OrderScaled(x, k * y, n);
  }

  /** The clamps never act: the ends lie in [0, 1] on either side of the share itself. */
  lemma EndsEnclose(sqrt: real -> real, m: Metric)
    requires Root(sqrt) && Tally(m) && m.total > 0
    ensures 0.0 <= Lo(sqrt, m) <= Share(m) <= Hi(sqrt, m) <= 1.0
    ensures Interval(sqrt, m) == (Lo(sqrt, m), Hi(sqrt, m))
  {
    var h := MetricEnds(sqrt, m);
    EndsBounds(Share(m), K(m.total as real), h, Lo(sqrt, m), Hi(sqrt, m));
  }

  /** The interval, clamps and the empty tally included, holds exactly the rates compatible with the tally. */
  lemma IntervalInvertsTest(sqrt: real -> real, m: Metric, q: real)
    requires Root(sqrt) && Tally(m)
    ensures Interval(sqrt, m).0 <= q <= Interval(sqrt, m).1 <==> Compatible(m, q)
  {
    if m.total > 0 {
      EndsEnclose(sqrt, m);
      EndsInvertTest(sqrt, m, q);
    }
  }

  // ---------------------------------------------------------------- comparing

  lemma IntervalEnds(sqrt: real -> real, m: Metric)
    requires Root(sqrt) && Tally(m)
    ensures var (lo, hi) := Interval(sqrt, m);
            0.0 <= lo <= hi <= 1.0 && (m.total > 0 ==> lo * 100.0 <= Accuracy(m) <= hi * 100.0)
  {
    if m.total > 0 { EndsEnclose(sqrt, m); }
  }

  /** The verdict is a tie exactly when some one rate is compatible with both tallies. */
  lemma TieExactly(sqrt: real -> real, a: Metric, b: Metric)
    requires Root(sqrt) && Tally(a) && Tally(b)
    ensures Compare(sqrt, a, b) == Tie <==> exists q :: Compatible(a, q) && Compatible(b, q)
  {
    IntervalEnds(sqrt, a);
    IntervalEnds(sqrt, b);
    var i, j := Interval(sqrt, a), Interval(sqrt, b);
    if Compare(sqrt, a, b) == Tie {
      var q := Max(i.0, j.0);
      IntervalInvertsTest(sqrt, a, q);
      IntervalInvertsTest(sqrt, b, q);
    }
    if q :| Compatible(a, q) && Compatible(b, q) {
      IntervalInvertsTest(sqrt, a, q);
      IntervalInvertsTest(sqrt, b, q);
    }
  }

  /** The verdict names the higher accuracy only when the intervals lie apart in that order, so never
      the lower one; swapping the tallies swaps it; an empty tally ties. */
  lemma VerdictsAreRight(sqrt: real -> real, a: Metric, b: Metric)
    requires Root(sqrt) && Tally(a) && Tally(b)
    ensures Compare(sqrt, a, b) == Better <==> Interval(sqrt, b).1 < Interval(sqrt, a).0
    ensures Compare(sqrt, a, b) == Worse <==> Interval(sqrt, a).1 < Interval(sqrt, b).0
    ensures Compare(sqrt, a, b) == Better ==> Accuracy(a) > Accuracy(b)
    ensures Compare(sqrt, a, b) == Worse ==> Accuracy(a) < Accuracy(b)
    ensures Compare(sqrt, a, b) == Better <==> Compare(sqrt, b, a) == Worse
    ensures a.total == 0 || b.total == 0 || Accuracy(a) == Accuracy(b) ==> Compare(sqrt, a, b) == Tie
  {
    IntervalEnds(sqrt, a);
    IntervalEnds(sqrt, b);
  }
}
