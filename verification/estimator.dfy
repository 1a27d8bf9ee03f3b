/**
  The point estimator of the Agresti-Coull confidence interval for a binomial
  proportion (Agresti and Coull, 1998, "Approximate is better than 'exact' for
  interval estimation of binomial proportions").

  The estimator adds z*z/2 pseudo-successes and z*z pseudo-trials to the
  observed counts and then takes a Wald-style interval around the adjusted
  proportion. Arithmetic is exact over `real`; the one square root of the
  formula is kept symbolic (see `ScaledRoot`).
 */
module PointEstimator {
  import opened Optional

  function Square(r: real): real {
    r * r
  }

  /**
    The real number `scale * sqrt(radicand)`. Dafny has no real square root,
    so the number is represented by its two factors and characterised by
    `Denotes`. It exists only for a non-negative radicand; for a negative one
    the square root of the original raises a domain error.
   */
  datatype ScaledRoot = ScaledRoot(scale: real, radicand: real) {

    /** The square root is defined (no domain error). */
    predicate Defined() {
      radicand >= 0.0
    }

    /** `d` is the number `scale * sqrt(radicand)`: its square is right and
        its sign is the sign of `scale`. */
    predicate Denotes(d: real) {
      && Defined()
      && Square(d) == Square(scale) * radicand
      && (scale >= 0.0 ==> d >= 0.0)
      && (scale <= 0.0 ==> d <= 0.0)
    }
  }

  /** The interval [center - halfWidth, center + halfWidth]. */
  datatype Interval = Interval(center: real, halfWidth: ScaledRoot)

  /**
    The estimator for `n` trials with `x` successes and confidence multiplier
    `z`. A non-positive sample size has no interval. Otherwise the center is
    the adjusted proportion (x + z*z/2) / (n + z*z), and the half-width is z
    times the square root of center * (1 - center) / (n + z*z).
   */
  function PointEstimate(n: real, x: real, z: real): (r: Option<Interval>)
    ensures r.None? <==> n <= 0.0
    ensures r.Some? ==> r.value.center * (n + Square(z)) == x + Square(z) / 2.0
    ensures r.Some? ==> r.value.halfWidth.scale == z
    ensures r.Some? ==>
      r.value.halfWidth.radicand * (n + Square(z)) == r.value.center * (1.0 - r.value.center)
  {
    if n <= 0.0 then None
    else
      var k := Square(z);
      var oneOverN := 1.0 / (n + k);
      var p := oneOverN * (x + k / 2.0);
      Some(Interval(p, ScaledRoot(z, oneOverN * p * (1.0 - p))))
  }

  /** The Wald interval x/n +- z * sqrt((x/n) * (1 - x/n) / n) on `n` trials
      with `x` successes. */
  function Wald(n: real, x: real, z: real): (r: Interval)
    requires n > 0.0
    ensures r.center * n == x
    ensures r.halfWidth.scale == z
    ensures r.halfWidth.radicand * n == r.center * (1.0 - r.center)
  {
    var p := x / n;
    Interval(p, ScaledRoot(z, p * (1.0 - p) / n))
  }

  /** Nonzero squares are positive. */
  lemma SquarePositive(z: real)
    requires z != 0.0
    ensures Square(z) > 0.0
  {
    if z > 0.0 {
      calc {
        Square(z);
      ==
        z * z;
      >
        0.0;
      }
    } else {
      calc {
        Square(z);
      ==
        (-z) * (-z);
      >
        0.0;
      }
    }
  }

  /** Multiplying by a positive factor keeps the sign. */
  lemma MulSign(a: real, m: real)
    requires m > 0.0
    ensures a > 0.0 ==> a * m > 0.0
    ensures a <= 0.0 ==> a * m <= 0.0
  {
    if a <= 0.0 {
      assert (-a) * m >= 0.0;
    }
  }

  /** Where p * m == v and m > 0, p compares with 0 and 1 as v compares with
      0 and m. */
  lemma ScaledComparison(p: real, m: real, v: real)
    requires m > 0.0 && p * m == v
    ensures 0.0 < p <==> 0.0 < v
    ensures 0.0 <= p <==> 0.0 <= v
    ensures p < 1.0 <==> v < m
    ensures p <= 1.0 <==> v <= m
  {
    MulSign(p, m);
    MulSign(-p, m);
    assert (-p) * m == -v;
    MulSign(1.0 - p, m);
    MulSign(p - 1.0, m);
    assert (1.0 - p) * m == m - v;
    assert (p - 1.0) * m == v - m;
  }

  /** p * (1 - p) is non-negative exactly for p in [0, 1]. */
  lemma UnitProduct(p: real)
    ensures 0.0 <= p * (1.0 - p) <==> 0.0 <= p <= 1.0
  {
    if p < 0.0 {
      MulSign(-p, 1.0 - p);
      assert (-p) * (1.0 - p) == -(p * (1.0 - p));
    } else if p > 1.0 {
      MulSign(p - 1.0, p);
      assert (p - 1.0) * p == -(p * (1.0 - p));
    } else if 0.0 < p < 1.0 {
      MulSign(p, 1.0 - p);
    }
  }

  /** A `ScaledRoot` stands for at most one number. */
  lemma DenotesUnique(h: ScaledRoot, d1: real, d2: real)
    requires h.Denotes(d1) && h.Denotes(d2)
    ensures d1 == d2
  {
    assert (d1 - d2) * (d1 + d2) == Square(d1) - Square(d2) == 0.0;
    if d1 + d2 == 0.0 {
      assert d1 == 0.0 && d2 == 0.0;
    }
  }

  /** The estimator is the Wald interval on the adjusted counts:
      n + z*z trials and x + z*z/2 successes. */
  lemma AdjustedWald(n: real, x: real, z: real)
    requires n > 0.0
    ensures PointEstimate(n, x, z) == Some(Wald(n + Square(z), x + Square(z) / 2.0, z))
  {
    var k := Square(z);
    var e := PointEstimate(n, x, z).value;
    var w := Wald(n + k, x + k / 2.0, z);
    assert e.center == w.center;
    assert e.halfWidth.radicand == w.halfWidth.radicand;
  }

  /** For a positive sample size the center is the adjusted proportion. */
  lemma CenterClosedForm(n: real, x: real, z: real)
    requires n > 0.0
    ensures PointEstimate(n, x, z).value.center == (x + z * z / 2.0) / (n + z * z)
  {
  }

  /** With z = 2 the center is (x + 2) / (n + 4): two successes and two
      failures added to the counts. */
  lemma CenterWithZTwo(n: real, x: real)
    requires n > 0.0
    ensures PointEstimate(n, x, 2.0).value.center == (x + 2.0) / (n + 4.0)
  {
    CenterClosedForm(n, x, 2.0);
  }

  /** The square of the half-width is z*z * p * (1 - p) / (n + z*z). */
  lemma HalfWidthSquared(n: real, x: real, z: real, d: real)
    requires n > 0.0
    requires PointEstimate(n, x, z).value.halfWidth.Denotes(d)
    ensures
      var p := PointEstimate(n, x, z).value.center;
      d * d == z * z * p * (1.0 - p) / (n + z * z)
  {
    var e := PointEstimate(n, x, z).value;
    var p := e.center;
    assert e.halfWidth.radicand == p * (1.0 - p) / (n + z * z);
  }

  /** The square root is defined exactly when the success count lies within
      z*z/2 of the range [0, n]; outside it the original raises a domain
      error. */
  lemma SqrtDomain(n: real, x: real, z: real)
    requires n > 0.0
    ensures PointEstimate(n, x, z).value.halfWidth.Defined()
            <==> -Square(z) / 2.0 <= x <= n + Square(z) / 2.0
  {
    var k := Square(z);
    var e := PointEstimate(n, x, z).value;
    var p := e.center;
    assert k >= 0.0;
    ScaledComparison(e.halfWidth.radicand, n + k, p * (1.0 - p));
    ScaledComparison(p, n + k, x + k / 2.0);
    UnitProduct(p);
  }

  /** For a valid success count 0 <= x <= n and z != 0 the center lies strictly
      between 0 and 1 and the square root argument is positive. */
  lemma ValidCountBounds(n: real, x: real, z: real)
    requires n > 0.0 && z != 0.0 && 0.0 <= x <= n
    ensures 0.0 < PointEstimate(n, x, z).value.center < 1.0
    ensures PointEstimate(n, x, z).value.halfWidth.radicand > 0.0
  {
    var k := Square(z);
    var e := PointEstimate(n, x, z).value;
    var p := e.center;
    SquarePositive(z);
    assert 0.0 < x + k / 2.0 < n + k;
    ScaledComparison(p, n + k, x + k / 2.0);
    MulSign(p, 1.0 - p);
    ScaledComparison(e.halfWidth.radicand, n + k, p * (1.0 - p));
  }

  /** For a valid success count and z > 0, the half-width is positive. */
  lemma PositiveHalfWidth(n: real, x: real, z: real, d: real)
    requires n > 0.0 && z > 0.0 && 0.0 <= x <= n
    requires PointEstimate(n, x, z).value.halfWidth.Denotes(d)
    ensures d > 0.0
  {
    var h := PointEstimate(n, x, z).value.halfWidth;
    ValidCountBounds(n, x, z);
    SquarePositive(z);
    MulSign(h.radicand, Square(z));
    assert Square(d) > 0.0;
  }

  /** Exchanging successes and failures reflects the center about 1/2 and
      keeps the half-width. */
  lemma Symmetry(n: real, x: real, z: real)
    requires n > 0.0
    ensures PointEstimate(n, n - x, z).value.center == 1.0 - PointEstimate(n, x, z).value.center
    ensures PointEstimate(n, n - x, z).value.halfWidth == PointEstimate(n, x, z).value.halfWidth
  {
    var k := Square(z);
    var a := PointEstimate(n, x, z).value;
    var b := PointEstimate(n, n - x, z).value;
    assert (a.center + b.center) * (n + k) == n + k;
    assert b.center == 1.0 - a.center;
    assert b.halfWidth.radicand * (n + k) == a.halfWidth.radicand * (n + k);
  }

  /** Squaring is strictly increasing on the non-negative reals. */
  lemma SquareIncreasing(a: real, b: real)
    requires 0.0 <= a < b
    ensures Square(a) < Square(b)
  {
    var u := b - a;
    MulSign(u, b);
    if a > 0.0 {
      MulSign(a, u);
    }
    calc {
      Square(b);
    ==
      (a + u) * (a + u);
    ==
      Square(a) + u * b + a * u;
    >
      Square(a);
    }
  }

  /** A non-negative number whose square lies in [lo*lo, hi*hi) lies in
      [lo, hi). */
  lemma RootBetween(d: real, lo: real, hi: real)
    requires 0.0 <= lo <= hi && 0.0 <= d
    requires Square(lo) <= Square(d) < Square(hi)
    ensures lo <= d < hi
  {
    if d < lo {
      SquareIncreasing(d, lo);
    }
    if hi < d {
      SquareIncreasing(hi, d);
    }
  }

  /** `v` rounded half up to four decimals, the precision of the worked
      values. */
  function Round4(v: real): real {
    ((v * 10000.0 + 0.5).Floor as real) / 10000.0
  }

  /** A worked value: the interval for `n` trials and `x` successes with
      z = 2, center and half-width rounded to four decimals. */
  datatype WorkedRow = WorkedRow(n: real, x: real, center: real, halfWidth: real)

  const WorkedValues: seq<WorkedRow> := [
    WorkedRow(1.0, 0.0, 0.4, 0.4382),
    WorkedRow(2.0, 0.0, 0.3333, 0.3849),
    WorkedRow(3.0, 0.0, 0.2857, 0.3415),
    WorkedRow(1.0, 1.0, 0.6, 0.4382),
    WorkedRow(2.0, 2.0, 0.6667, 0.3849),
    WorkedRow(3.0, 3.0, 0.7143, 0.3415)
  ]

  /** The shown radicand, center and half-width bounds of one worked row. */
  lemma WorkedRowHolds(n: real, x: real, p: real, radicand: real, lo: real, hi: real, d: real)
    requires n > 0.0 && 0.0 <= lo <= hi
    requires PointEstimate(n, x, 2.0) == Some(Interval(p, ScaledRoot(2.0, radicand)))
    requires Square(lo) <= 4.0 * radicand < Square(hi)
    requires ScaledRoot(2.0, radicand).Denotes(d)
    ensures lo <= d < hi
  {
    RootBetween(d, lo, hi);
  }

  /** Every worked value is the exact interval rounded to four decimals. */
  lemma WorkedValuesHold(i: nat, d: real)
    requires i < |WorkedValues|
    requires PointEstimate(WorkedValues[i].n, WorkedValues[i].x, 2.0).value.halfWidth.Denotes(d)
    ensures Round4(PointEstimate(WorkedValues[i].n, WorkedValues[i].x, 2.0).value.center)
            == WorkedValues[i].center
    ensures Round4(d) == WorkedValues[i].halfWidth
  {
    var row := WorkedValues[i];
    if i == 0 || i == 3 {
      assert PointEstimate(row.n, row.x, 2.0).value.halfWidth == ScaledRoot(2.0, 6.0 / 125.0);
      WorkedRowHolds(row.n, row.x, PointEstimate(row.n, row.x, 2.0).value.center,
                     6.0 / 125.0, 0.43815, 0.43825, d);
    } else if i == 1 || i == 4 {
      assert PointEstimate(row.n, row.x, 2.0).value.halfWidth == ScaledRoot(2.0, 1.0 / 27.0);
      WorkedRowHolds(row.n, row.x, PointEstimate(row.n, row.x, 2.0).value.center,
                     1.0 / 27.0, 0.38485, 0.38495, d);
    } else {
      assert PointEstimate(row.n, row.x, 2.0).value.halfWidth == ScaledRoot(2.0, 10.0 / 343.0);
      WorkedRowHolds(row.n, row.x, PointEstimate(row.n, row.x, 2.0).value.center,
                     10.0 / 343.0, 0.34145, 0.34155, d);
    }
  }

  /** The exact centers of the worked rows. */
  lemma WorkedCentersExact()
    ensures PointEstimate(1.0, 0.0, 2.0).value.center == 2.0 / 5.0
    ensures PointEstimate(2.0, 0.0, 2.0).value.center == 1.0 / 3.0
    ensures PointEstimate(3.0, 0.0, 2.0).value.center == 2.0 / 7.0
    ensures PointEstimate(1.0, 1.0, 2.0).value.center == 3.0 / 5.0
    ensures PointEstimate(2.0, 2.0, 2.0).value.center == 2.0 / 3.0
    ensures PointEstimate(3.0, 3.0, 2.0).value.center == 5.0 / 7.0
  {
    CenterWithZTwo(1.0, 0.0);
    CenterWithZTwo(2.0, 0.0);
    CenterWithZTwo(3.0, 0.0);
    CenterWithZTwo(1.0, 1.0);
    CenterWithZTwo(2.0, 2.0);
    CenterWithZTwo(3.0, 3.0);
  }

  /** The worked row (0, 0) -> 0.5, 0.5 is what the formula gives without its
      guard: the Wald interval on 0 + 4 trials with 0 + 2 successes. The guard
      makes that row unreachable; the estimator has no interval for n = 0. */
  lemma UnguardedZeroRow()
    ensures PointEstimate(0.0, 0.0, 2.0) == None
    ensures Wald(0.0 + Square(2.0), 0.0 + Square(2.0) / 2.0, 2.0).center == 0.5
    ensures Wald(0.0 + Square(2.0), 0.0 + Square(2.0) / 2.0, 2.0).halfWidth.Denotes(0.5)
  {
  }
}
