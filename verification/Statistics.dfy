/**
 The statistics of the qualification programme over the reals: the interpolated
 percentile, the nearest-rank percentile of the benchmark scripts, and the Wilson
 score interval.
 */
module Statistics {
  import opened Common
  import opened Sorting

  // ----- Order -----

  predicate AtMost(x: real, y: real) {
    x <= y
  }

  function InOrder(values: seq<real>): (s: seq<real>)
    ensures |s| == |values|
  {
    Sorted(AtMost, values)
  }

  ghost predicate Ascending(s: seq<real>) {
    forall i, j :: 0 <= i < j < |s| ==> s[i] <= s[j]
  }

  lemma InOrderIsAscendingPermutation(values: seq<real>)
    ensures Ascending(InOrder(values))
    ensures multiset(InOrder(values)) == multiset(values)
    ensures forall v :: v in InOrder(values) <==> v in values
  {
    SortedIsOrdered(AtMost, values);
    SortedIsPermutation(AtMost, values);
    SortedHasSameElements(AtMost, values);
    forall i, j | 0 <= i < j < |values| ensures InOrder(values)[i] <= InOrder(values)[j] {
      assert AtMost(InOrder(values)[i], InOrder(values)[j]);
    }
  }

  lemma InOrderIgnoresOrder(a: seq<real>, b: seq<real>)
    requires multiset(a) == multiset(b)
    ensures InOrder(a) == InOrder(b)
  {
    SortedIsCanonical(AtMost, a, b);
  }

  // ----- Products of reals -----

  lemma Positive(a: real, b: real)
    requires a > 0.0 && b > 0.0
    ensures a * b > 0.0
  {
  }

  lemma PositiveProduct(a: real, b: real, product: real)
    requires a > 0.0 && b > 0.0 && product == a * b
    ensures product > 0.0
  {
  }

  lemma NonNegative(a: real, b: real)
    requires a >= 0.0 && b >= 0.0
    ensures a * b >= 0.0
  {
  }

  lemma ProductGrows(a: real, b: real, k: real)
    requires a <= b && k >= 0.0
    ensures a * k <= b * k && k * a <= k * b
  {
  }

  lemma QuotientIs(q: real, a: real, scale: real)
    requires scale != 0.0 && q * scale == a
    ensures a / scale == q
  {
  }

  // ----- Percentiles -----

  function Ceiling(x: real): int {
    -((-x).Floor)
  }

  function Interpolate(low: real, high: real, t: real): real {
    low + (high - low) * t
  }

  // Linear interpolation between the order statistics around rank x.
  function At(ordered: seq<real>, x: real): real
    requires |ordered| > 0 && 0.0 <= x <= (|ordered| - 1) as real
  {
    var low := x.Floor;
    var high := Ceiling(x);
    Interpolate(ordered[low], ordered[high], x - low as real)
  }

  function Rank(n: nat, p: real): real {
    (n - 1) as real * p
  }

  lemma RankGrows(n: nat, p: real, q: real)
    requires n > 0 && p <= q
    ensures Rank(n, p) <= Rank(n, q)
  {
  }

  lemma RankInRange(n: nat, p: real)
    requires n > 0 && 0.0 <= p <= 1.0
    ensures 0.0 <= Rank(n, p) <= (n - 1) as real
  {
    RankGrows(n, 0.0, p);
    RankGrows(n, p, 1.0);
  }

  // The percentile of values already in order.
  function OfOrdered(ordered: seq<real>, p: real): real
    requires |ordered| > 0 && 0.0 <= p <= 1.0
  {
    RankInRange(|ordered|, p);
    At(ordered, Rank(|ordered|, p))
  }

  function Percentile(values: seq<real>, p: real): Option<real>
    requires 0.0 <= p <= 1.0
  {
    if values == [] then None else Some(OfOrdered(InOrder(values), p))
  }

  function NearestRankIndex(n: nat, p: real): int {
    var index := Ceiling(p * n as real) - 1;
    if index > 0 then index else 0
  }

  function NearestRank(values: seq<real>, p: real): Option<real>
    requires 0.0 <= p <= 1.0
  {
    if values == [] then None
    else
      Some(InOrder(values)[NearestRankIndex(|values|, p)])
  }

  /** Neither percentile depends on the order in which the values were collected. */
  lemma PercentilesIgnoreOrder(a: seq<real>, b: seq<real>, p: real)
    requires 0.0 <= p <= 1.0 && multiset(a) == multiset(b)
    ensures Percentile(a, p) == Percentile(b, p)
    ensures NearestRank(a, p) == NearestRank(b, p)
  {
    InOrderIgnoresOrder(a, b);
  }

  lemma Between(low: real, high: real, t: real)
    requires low <= high && 0.0 <= t <= 1.0
    ensures low <= Interpolate(low, high, t) <= high
    ensures t == 0.0 ==> Interpolate(low, high, t) == low
  {
    ProductGrows(0.0, t, high - low);
    ProductGrows(t, 1.0, high - low);
  }

  lemma InterpolateGrows(low: real, high: real, t: real, u: real)
    requires low <= high && t <= u
    ensures Interpolate(low, high, t) <= Interpolate(low, high, u)
  {
  }

  lemma AtBetweenNeighbours(s: seq<real>, x: real)
    requires |s| > 0 && Ascending(s) && 0.0 <= x <= (|s| - 1) as real
    ensures 0 <= x.Floor <= Ceiling(x) < |s| && Ceiling(x) <= x.Floor + 1
    ensures s[x.Floor] <= At(s, x) <= s[Ceiling(x)]
    ensures x == x.Floor as real ==> At(s, x) == s[x.Floor]
  {
    Between(s[x.Floor], s[Ceiling(x)], x - x.Floor as real);
  }

  lemma AtIsMonotone(s: seq<real>, x: real, y: real)
    requires |s| > 0 && Ascending(s) && 0.0 <= x <= y <= (|s| - 1) as real
    ensures At(s, x) <= At(s, y)
  {
    AtBetweenNeighbours(s, x);
    AtBetweenNeighbours(s, y);
    if x.Floor == y.Floor && x != x.Floor as real {
      assert Ceiling(x) == Ceiling(y);
      InterpolateGrows(s[x.Floor], s[Ceiling(x)], x - x.Floor as real, y - x.Floor as real);
    } else if x.Floor != y.Floor {
      assert Ceiling(x) <= y.Floor;
    }
  }

  lemma ExtremesOf(values: seq<real>)
    requires values != []
    ensures forall v :: v in values ==> InOrder(values)[0] <= v <= Last(InOrder(values))
    ensures InOrder(values)[0] in values && Last(InOrder(values)) in values
  {
    var s := InOrder(values);
    InOrderIsAscendingPermutation(values);
    assert s[0] in s && Last(s) in s;
    forall v | v in values ensures s[0] <= v <= Last(s) {
      assert v in s;
    }
  }

  lemma OfOrderedIsMonotone(s: seq<real>, p: real, q: real)
    requires |s| > 0 && Ascending(s) && 0.0 <= p <= q <= 1.0
    ensures OfOrdered(s, p) <= OfOrdered(s, q)
  {
    RankInRange(|s|, p);
    RankInRange(|s|, q);
    RankGrows(|s|, p, q);
    AtIsMonotone(s, Rank(|s|, p), Rank(|s|, q));
  }

  lemma OfOrderedAtEnds(s: seq<real>)
    requires |s| > 0 && Ascending(s)
    ensures OfOrdered(s, 0.0) == s[0] && OfOrdered(s, 1.0) == Last(s)
  {
  }

  /** Among a set of values the interpolated percentile lies between the smallest and
      the largest, attains them at 0 and 1, and never decreases as p grows. */
  lemma PercentileIsBoundedAndMonotone(values: seq<real>, p: real, q: real)
    requires values != [] && 0.0 <= p <= q <= 1.0
    ensures Percentile(values, p).value <= Percentile(values, q).value
    ensures forall v :: v in values ==> Percentile(values, 0.0).value <= v <= Percentile(values, 1.0).value
    ensures Percentile(values, 0.0).value in values && Percentile(values, 1.0).value in values
  {
    ExtremesOf(values);
    InOrderIsAscendingPermutation(values);
    OfOrderedIsMonotone(InOrder(values), p, q);
    OfOrderedAtEnds(InOrder(values));
  }

  lemma NearestRankIndexBrackets(n: nat, p: real)
    requires n > 0 && 0.0 <= p <= 1.0
    ensures
      var x := Rank(n, p);
      NearestRankIndex(n, p) == x.Floor || NearestRankIndex(n, p) == Ceiling(x)
  {
    RankInRange(n, p);
    assert p * n as real == Rank(n, p) + p;
  }

  lemma OfOrderedBetween(s: seq<real>, x: real, p: real)
    requires |s| > 0 && Ascending(s) && 0.0 <= p <= 1.0 && x == Rank(|s|, p)
    ensures 0 <= x.Floor <= Ceiling(x) < |s| && Ceiling(x) <= x.Floor + 1
    ensures s[x.Floor] <= OfOrdered(s, p) <= s[Ceiling(x)]
  {
    RankInRange(|s|, p);
    AtBetweenNeighbours(s, x);
  }

  /** The two percentiles of the repository agree up to interpolation: for every p from
      0 to 1 the nearest rank is one of the two ranks that bracket the interpolated
      one, and those are at most one apart, so the values bracket each other too. */
  lemma NearestRankBracketsInterpolation(values: seq<real>, p: real)
    requires values != [] && 0.0 <= p <= 1.0
    ensures
      var x := Rank(|values|, p);
      && 0 <= x.Floor <= Ceiling(x) < |values| && Ceiling(x) <= x.Floor + 1
      && (NearestRank(values, p).value == InOrder(values)[x.Floor]
          || NearestRank(values, p).value == InOrder(values)[Ceiling(x)])
      && InOrder(values)[x.Floor] <= Percentile(values, p).value <= InOrder(values)[Ceiling(x)]
  {
    InOrderIsAscendingPermutation(values);
    OfOrderedBetween(InOrder(values), Rank(|values|, p), p);
    NearestRankIndexBrackets(|values|, p);
  }

  /** The interpolated percentile itself: with the values in ascending order and rank
      (n - 1) p between places k and k + 1, it divides the way from the one value to the
      other as the rank divides the way from k to k + 1; at a whole rank it is the value
      there. */
  lemma PercentileInterpolates(values: seq<real>, p: real, k: nat)
    requires values != [] && 0.0 <= p <= 1.0 && k < |values|
    ensures (|values| - 1) as real * p == k as real ==> Percentile(values, p) == Some(InOrder(values)[k])
    ensures k as real < (|values| - 1) as real * p < (k + 1) as real ==>
      && k + 1 < |values|
      && Percentile(values, p).value - InOrder(values)[k]
           == (InOrder(values)[k + 1] - InOrder(values)[k]) * ((|values| - 1) as real * p - k as real)
    ensures Percentile([], p) == None
  {
    RankInRange(|values|, p);
    AtDivides(InOrder(values), Rank(|values|, p), k);
  }

  lemma AtDivides(s: seq<real>, x: real, k: nat)
    requires |s| > 0 && 0.0 <= x <= (|s| - 1) as real && k < |s|
    ensures x == k as real ==> At(s, x) == s[k]
    ensures k as real < x < (k + 1) as real ==> k + 1 < |s| && At(s, x) - s[k] == (s[k + 1] - s[k]) * (x - k as real)
  {
    if k as real <= x < (k + 1) as real {
      assert x.Floor == k;
      assert Ceiling(x) == if x == k as real then k else k + 1;
    }
  }

  /** The nearest-rank percentile is the value at the first place by which at least the
      share p of the values has been passed. */
  lemma NearestRankIsTheFirst(values: seq<real>, p: real, k: nat)
    requires values != [] && 0.0 <= p <= 1.0 && k < |values|
    requires (k + 1) as real >= p * |values| as real && (k > 0 ==> k as real < p * |values| as real)
    ensures NearestRank(values, p) == Some(InOrder(values)[k])
    ensures NearestRank([], p) == None
  {
  }

  // ----- The Wilson score interval -----

  const Z: real := 1.959963984540054

  function Radicand(fraction: real, total: real): real
    requires total > 0.0
  {
    fraction * (1.0 - fraction) / total + Z * Z / (4.0 * total * total)
  }

  // `root` is the non-negative square root of x.
  predicate IsRoot(root: real, x: real) {
    root >= 0.0 && root * root == x
  }

  datatype Interval = Interval(lower: real, upper: real)

  function Wilson(successes: nat, total: nat, root: real): Option<Interval>
    requires successes <= total
    requires total > 0 ==> IsRoot(root, Radicand(successes as real / total as real, total as real))
  {
    if total == 0 then None
    else
      var n := total as real;
      var fraction := successes as real / n;
      var scale := 1.0 + Z * Z / n;
      var centre := (fraction + Z * Z / (2.0 * n)) / scale;
      var width := Z * root / scale;
      Some(Interval(centre - width, centre + width))
  }

  lemma SquareGrows(w: real, a: real)
    requires 0.0 <= w < a
    ensures w * w < a * a
  {
    Positive(a - w, a + w);
    assert (a - w) * (a + w) == a * a - w * w;
  }

  // Square roots compare as their squares do.
  lemma RootCompares(a: real, w: real)
    requires w >= 0.0 && a * a <= w * w
    ensures a <= w
  {
    if a > w {
      SquareGrows(w, a);
    }
  }

  // With k = Z*Z/n: everything times the common denominator 1 + k.
  lemma ScaledWidth(f: real, n: real, root: real) returns (k: real, w: real)
    requires n > 0.0 && 0.0 <= f <= 1.0 && IsRoot(root, Radicand(f, n))
    ensures k > 0.0 && w >= 0.0
    ensures w * w == k * (f * (1.0 - f)) + k * k / 4.0
    ensures k == Z * Z / n && w == Z * root
  {
    k := Z * Z / n;
    w := Z * root;
    var inverse := 1.0 / n;
    assert inverse * n == 1.0;
    assert k == Z * Z * inverse;
    assert f * (1.0 - f) / n == f * (1.0 - f) * inverse;
    assert Z * Z / (4.0 * n * n) == Z * Z * inverse * inverse / 4.0 by {
      var d := 4.0 * n * n;
      assert (Z * Z * inverse * inverse / 4.0) * d == Z * Z * (inverse * n) * (inverse * n);
    }
    assert w * w == Z * Z * (root * root);
    assert Z * Z * (f * (1.0 - f) * inverse) == k * (f * (1.0 - f));
    assert Z * Z * (Z * Z * inverse * inverse / 4.0) == k * k / 4.0;
  }

  // How far the scaled half-width falls short of the scaled centre.
  lemma UpperMargin(f: real, ff: real, k: real, w: real)
    requires 0.0 <= f <= 1.0 && k > 0.0 && w >= 0.0 && ff == f * f
    requires w * w == k * (f * (1.0 - f)) + k * k / 4.0
    ensures (f + k / 2.0) * (f + k / 2.0) - w * w == ff * (1.0 + k)
  {
  }

  // The scaled inequalities behind soundness, for the success fraction and, by
  // symmetry, for the failure fraction.
  lemma ScaledBounds(f: real, k: real, w: real)
    requires 0.0 <= f <= 1.0 && k > 0.0 && w >= 0.0
    requires w * w == k * (f * (1.0 - f)) + k * k / 4.0
    ensures w <= f + k / 2.0 && k / 2.0 - k * f <= w
    ensures w == f + k / 2.0 <==> f == 0.0
  {
    var ff := f * f;
    UpperMargin(f, ff, k, w);
    LowerMargin(f, k, w);
    SquaresDecide(w, f + k / 2.0, ff, 1.0 + k);
    if f != 0.0 {
      PositiveProduct(f, f, ff);
    }
  }

  lemma SquaresDecide(w: real, a: real, ff: real, scale: real)
    requires w >= 0.0 && a >= 0.0 && ff >= 0.0 && scale > 0.0
    requires a * a - w * w == ff * scale
    ensures w <= a && (w == a <==> ff == 0.0)
  {
    if ff == 0.0 {
      RootCompares(a, w);
      RootCompares(w, a);
    } else {
      Positive(ff, scale);
    }
  }

  lemma LowerMargin(f: real, k: real, w: real)
    requires 0.0 <= f <= 1.0 && k > 0.0 && w >= 0.0
    requires w * w == k * (f * (1.0 - f)) + k * k / 4.0
    ensures k / 2.0 - k * f <= w
  {
    var spread := f * (1.0 - f);
    var d := k / 2.0 - k * f;
    NonNegative(f, 1.0 - f);
    NonNegative(k, spread);
    NonNegative(k, k * spread);
    assert d == k * (0.5 - f);
    assert d * d == (k * k) * ((0.5 - f) * (0.5 - f));
    assert (0.5 - f) * (0.5 - f) == 0.25 - spread;
    assert (k * k) * (0.25 - spread) == k * k / 4.0 - k * (k * spread);
    RootCompares(d, w);
  }

  // The bounds as quotients of the scaled quantities.
  lemma WilsonScaled(successes: nat, total: nat, root: real) returns (f: real, k: real, w: real)
    requires successes <= total && total > 0
    requires IsRoot(root, Radicand(successes as real / total as real, total as real))
    ensures f == successes as real / total as real && 0.0 <= f <= 1.0
    ensures f == 0.0 <==> successes == 0
    ensures f == 1.0 <==> successes == total
    ensures k > 0.0 && w >= 0.0 && w * w == k * (f * (1.0 - f)) + k * k / 4.0
    ensures k == Z * Z / total as real && w == Z * root
    ensures Wilson(successes, total, root)
      == Some(Interval((f + k / 2.0 - w) / (1.0 + k), (f + k / 2.0 + w) / (1.0 + k)))
  {
    var n := total as real;
    f := successes as real / n;
    assert f * n == successes as real;
    k, w := ScaledWidth(f, n, root);
    var scale := 1.0 + k;
    HalfQuotient(k, n);
    QuotientsAdd(f + k / 2.0, w, scale);
  }

  lemma HalfQuotient(k: real, n: real)
    requires n > 0.0 && k == Z * Z / n
    ensures Z * Z / (2.0 * n) == k / 2.0
  {
  }

  lemma QuotientsAdd(a: real, b: real, scale: real)
    requires scale > 0.0
    ensures a / scale - b / scale == (a - b) / scale
    ensures a / scale + b / scale == (a + b) / scale
  {
  }

  lemma Rescale(x: real, y: real, scale: real)
    requires scale > 0.0
    ensures x <= y * scale ==> x / scale <= y
    ensures y * scale <= x ==> y <= x / scale
    ensures x == y * scale <==> x / scale == y
  {
  }

  /** The Wilson interval is a sound interval of rates: it contains the observed rate
      and stays within 0 and 1. */
  lemma WilsonIsSound(successes: nat, total: nat, root: real)
    requires successes <= total && total > 0
    requires IsRoot(root, Radicand(successes as real / total as real, total as real))
    ensures
      var i := Wilson(successes, total, root).value;
      0.0 <= i.lower <= successes as real / total as real <= i.upper <= 1.0
  {
    var f, k, w := WilsonScaled(successes, total, root);
    QuotientBounds(f, k, w);
  }

  /** The interval touches 0 exactly when nothing succeeded and 1 exactly when
      everything did. */
  lemma WilsonTouchesTheEnds(successes: nat, total: nat, root: real)
    requires successes <= total && total > 0
    requires IsRoot(root, Radicand(successes as real / total as real, total as real))
    ensures Wilson(successes, total, root).value.lower == 0.0 <==> successes == 0
    ensures Wilson(successes, total, root).value.upper == 1.0 <==> successes == total
  {
    var f, k, w := WilsonScaled(successes, total, root);
    QuotientBounds(f, k, w);
  }

  lemma Roots(f: real, k: real, w: real, q: real)
    requires w * w == k * (f * (1.0 - f)) + k * k / 4.0
    ensures
      var a, scale := f + k / 2.0, 1.0 + k;
      (scale * q - (a - w)) * (scale * q - (a + w)) == scale * ((f - q) * (f - q) - k * (q * (1.0 - q)))
  {
  }

  // The observed rate differs from the rate q by no more than z standard errors, reckoned with q.
  predicate PassesScoreTest(f: real, n: real, z: real, q: real) {
    n * ((f - q) * (f - q)) <= z * z * (q * (1.0 - q))
  }

  /** The Wilson interval inverts the score test: a rate lies within it exactly when the
      observed rate passes the score test for that rate. There is no interval without a trial. */
  lemma WilsonInvertsTheScoreTest(successes: nat, total: nat, root: real, q: real)
    requires successes <= total && total > 0
    requires IsRoot(root, Radicand(successes as real / total as real, total as real))
    ensures
      var i, f := Wilson(successes, total, root).value, successes as real / total as real;
      i.lower <= q <= i.upper <==> PassesScoreTest(f, total as real, 1.959963984540054, q)
    ensures Wilson(0, 0, root) == None
  {
    hide PassesScoreTest;
    var f, k, w := WilsonScaled(successes, total, root);
    ProductOfQuotient(k, Z * Z, total as real);
    ScoreTest(f, k, w, total as real, Z, q, Z * Z, (f - q) * (f - q), q * (1.0 - q));
  }

  lemma ProductOfQuotient(k: real, a: real, n: real)
    requires n != 0.0 && k == a / n
    ensures n * k == a
  {
  }

  lemma ScoreTest(f: real, k: real, w: real, n: real, z: real, q: real, zz: real, near: real, spread: real)
    requires k > 0.0 && w >= 0.0 && n > 0.0 && w * w == k * (f * (1.0 - f)) + k * k / 4.0 && n * k == zz
    requires zz == z * z && near == (f - q) * (f - q) && spread == q * (1.0 - q)
    ensures (f + k / 2.0 - w) / (1.0 + k) <= q <= (f + k / 2.0 + w) / (1.0 + k) <==> PassesScoreTest(f, n, z, q)
  {
    hide PassesScoreTest;
    var scale, low, high := 1.0 + k, f + k / 2.0 - w, f + k / 2.0 + w;
    var at := scale * q;
    Rescaled(low, q, scale, at);
    Rescaled(high, q, scale, at);
    BetweenRoots(at - low, at - high);
    Roots(f, k, w, q);
    Scaled(scale, n, k, zz, near, spread);
    ScoreNamed(f, n, z, q, zz, near, spread);
  }

  lemma ScoreNamed(f: real, n: real, z: real, q: real, zz: real, near: real, spread: real)
    requires zz == z * z && near == (f - q) * (f - q) && spread == q * (1.0 - q)
    ensures PassesScoreTest(f, n, z, q) <==> n * near <= zz * spread
  {
  }

  lemma Scaled(scale: real, n: real, k: real, zz: real, near: real, spread: real)
    requires scale > 0.0 && n > 0.0 && n * k == zz
    ensures scale * (near - k * spread) <= 0.0 <==> n * near <= zz * spread
  {
  }

  lemma Rescaled(x: real, y: real, scale: real, at: real)
    requires scale > 0.0 && at == scale * y
    ensures x / scale <= y <==> x <= at
    ensures y <= x / scale <==> at <= x
  {
  }

  lemma BetweenRoots(x: real, y: real)
    requires y <= x
    ensures x * y <= 0.0 <==> y <= 0.0 <= x
  {
  }

  lemma QuotientBounds(f: real, k: real, w: real)
    requires 0.0 <= f <= 1.0 && k > 0.0 && w >= 0.0
    requires w * w == k * (f * (1.0 - f)) + k * k / 4.0
    ensures 0.0 <= (f + k / 2.0 - w) / (1.0 + k) <= f <= (f + k / 2.0 + w) / (1.0 + k) <= 1.0
    ensures (f + k / 2.0 - w) / (1.0 + k) == 0.0 <==> f == 0.0
    ensures (f + k / 2.0 + w) / (1.0 + k) == 1.0 <==> f == 1.0
  {
    ScaledBounds(f, k, w);
    assert (1.0 - f) * (1.0 - (1.0 - f)) == f * (1.0 - f);
    ScaledBounds(1.0 - f, k, w);
    var scale, lower, upper := 1.0 + k, f + k / 2.0 - w, f + k / 2.0 + w;
    assert f * scale == f + k * f && k * (1.0 - f) == k - k * f;
    Rescale(lower, 0.0, scale);
    Rescale(lower, f, scale);
    Rescale(upper, f, scale);
    Rescale(upper, 1.0, scale);
  }

  /** Counting failures instead of successes mirrors the interval, so neither outcome
      is favoured. */
  lemma WilsonIsSymmetric(successes: nat, total: nat, root: real)
    requires successes <= total && total > 0
    requires IsRoot(root, Radicand(successes as real / total as real, total as real))
    requires IsRoot(root, Radicand((total - successes) as real / total as real, total as real))
    ensures Wilson(successes, total, root).value.upper + Wilson(total - successes, total, root).value.lower == 1.0
    ensures Wilson(successes, total, root).value.lower + Wilson(total - successes, total, root).value.upper == 1.0
  {
    var n := total as real;
    var f := successes as real / n;
    assert f * n == successes as real && (1.0 - f) * n == (total - successes) as real;
    QuotientIs(1.0 - f, (total - successes) as real, n);
    var g, k, w := WilsonScaled(successes, total, root);
    var g', k', w' := WilsonScaled(total - successes, total, root);
    assert k == k' && w == w';
    Mirror(f + k / 2.0 - w, 1.0 + k);
    Mirror(f + k / 2.0 + w, 1.0 + k);
  }

  lemma Mirror(x: real, scale: real)
    requires scale > 0.0
    ensures 1.0 - x / scale == (scale - x) / scale
  {
    var q := x / scale;
    assert q * scale == x && (1.0 - q) * scale == scale - x;
    QuotientIs(1.0 - q, scale - x, scale);
  }
}
