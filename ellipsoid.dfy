/**
 * Ellipsoid fitting and per-phase aggregation (fitellipsoid/ellipsoid.py).
 *
 * `FitEllipsoid` computes a grain's centre (the mean of its vertices on each
 * axis) and its dispersion matrix (the sample covariances of the vertex
 * coordinates). The eigen-decomposition of that matrix, the square roots and
 * the volume scaling that turn it into semi-axis lengths are floating-point
 * linear algebra and are taken as a parameter (`Numerics.semiAxes`), as is
 * numpy's cube root. `FitPhase` runs over every grain and groups the
 * equivalent diameters and aspect ratios of the non-spherical ones by phase.
 */
module Ellipsoid {
  import opened Points
  import opened Preprocessing

  type Matrix = seq<seq<real>>

  /** Three semi-axis lengths. */
  datatype Axes = Axes(l1: real, l2: real, l3: real)

  /** Semi-axes as the fit produces them: square roots times a cube-root scale, hence never negative. */
  type SemiAxes = L: Axes | L.l1 >= 0.0 && L.l2 >= 0.0 && L.l3 >= 0.0 witness Axes(0.0, 0.0, 0.0)

  /**
   * The numeric steps this model leaves uninterpreted: `semiAxes(Sigma, n)`
   * stands for `np.sqrt(eig(Sigma)) * cbrt(3n / (4 pi sqrt(prod(eig(Sigma)))))`,
   * `cbrt` for `np.cbrt`.
   */
  datatype Numerics = Numerics(semiAxes: (Matrix, nat) -> SemiAxes, cbrt: real -> real)

  /** Centre, dispersion matrix and semi-axes of a grain's fitted ellipsoid. */
  datatype EllipsoidFit = EllipsoidFit(muX: real, muY: real, muZ: real, sigma: Matrix, axes: SemiAxes)

  /** The size (`d`) and shape (`a`) samples per phase; `keys` is the dictionaries' iteration order. */
  datatype PhaseSamples = PhaseSamples(keys: seq<int>, d: map<int, seq<real>>, a: map<int, seq<real>>)

  // ----- Moments -----

  function Sum(xs: seq<real>): real {
    if xs == [] then 0.0 else Sum(xs[..|xs| - 1]) + xs[|xs| - 1]
  }

  /** `np.average`. */
  function Mean(xs: seq<real>): real
    requires |xs| > 0
  {
    Sum(xs) / |xs| as real
  }

  function Deviations(xs: seq<real>, c: real): seq<real> {
    seq(|xs|, k requires 0 <= k < |xs| => xs[k] - c)
  }

  /** Sum of the products of the deviations of `a` from `ma` and of `b` from `mb`. */
  function CoSum(a: seq<real>, b: seq<real>, ma: real, mb: real): real
    requires |a| == |b|
  {
    if a == [] then 0.0
    else CoSum(a[..|a| - 1], b[..|b| - 1], ma, mb) + (a[|a| - 1] - ma) * (b[|b| - 1] - mb)
  }

  /** `np.cov(a, b)[0][1]`: the sample covariance of `a` and `b`, normalised by n - 1. */
  function Cov(a: seq<real>, b: seq<real>): real
    requires |a| == |b| >= 2
  {
    CoSum(a, b, Mean(a), Mean(b)) / (|a| - 1) as real
  }

  /** Row `axis` of the transposed vertex array: the x, y or z coordinates of all vertices. */
  function Coordinates(vs: seq<Point>, axis: nat): seq<real>
    requires axis < 3
  {
    seq(|vs|, k requires 0 <= k < |vs| =>
      (if axis == 0 then vs[k].x else if axis == 1 then vs[k].y else vs[k].z) as real)
  }

  /** Every row of `A` holds `N` values. */
  predicate Rectangular(A: seq<seq<real>>, N: nat) {
    forall i :: 0 <= i < |A| ==> |A[i]| == N
  }

  predicate Symmetric(m: Matrix) {
    && |m| == 3
    && (forall i :: 0 <= i < 3 ==> |m[i]| == 3)
    && (forall i, j :: 0 <= i < 3 && 0 <= j < 3 ==> m[i][j] == m[j][i])
  }

  lemma {:induction false} SumOfDeviations(xs: seq<real>, c: real)
    ensures Sum(Deviations(xs, c)) == Sum(xs) - |xs| as real * c
  {
    if xs != [] {
      var init := xs[..|xs| - 1];
      SumOfDeviations(init, c);
      assert Deviations(xs, c)[..|xs| - 1] == Deviations(init, c);
    }
  }

  /** The mean is the one point from which the deviations cancel out. */
  lemma DeviationsFromMeanCancel(xs: seq<real>)
    requires |xs| > 0
    ensures Sum(Deviations(xs, Mean(xs))) == 0.0
  {
    SumOfDeviations(xs, Mean(xs));
  }

  lemma {:induction false} SumBounds(xs: seq<real>, lo: real, hi: real)
    requires forall k :: 0 <= k < |xs| ==> lo <= xs[k] <= hi
    ensures |xs| as real * lo <= Sum(xs) <= |xs| as real * hi
  {
    if xs != [] {
      SumBounds(xs[..|xs| - 1], lo, hi);
    }
  }

  /** The mean lies between any lower and upper bound of the values. */
  lemma MeanBounds(xs: seq<real>, lo: real, hi: real)
    requires |xs| > 0
    requires forall k :: 0 <= k < |xs| ==> lo <= xs[k] <= hi
    ensures lo <= Mean(xs) <= hi
  {
    SumBounds(xs, lo, hi);
  }

  lemma {:induction false} CoSumSymmetric(a: seq<real>, b: seq<real>, ma: real, mb: real)
    requires |a| == |b|
    ensures CoSum(a, b, ma, mb) == CoSum(b, a, mb, ma)
  {
    if a != [] {
      CoSumSymmetric(a[..|a| - 1], b[..|b| - 1], ma, mb);
    }
  }

  lemma {:induction false} CoSumSelfNonNegative(a: seq<real>, m: real)
    ensures CoSum(a, a, m, m) >= 0.0
  {
    if a != [] {
      CoSumSelfNonNegative(a[..|a| - 1], m);
      var e := a[|a| - 1] - m;
      assert e * e >= 0.0;
    }
  }

  /** The covariance is symmetric in its two arguments, and a variance is never negative. */
  lemma CovProperties(a: seq<real>, b: seq<real>)
    requires |a| == |b| >= 2
    ensures Cov(a, b) == Cov(b, a)
    ensures Cov(a, a) >= 0.0
  {
    CoSumSymmetric(a, b, Mean(a), Mean(b));
    CoSumSelfNonNegative(a, Mean(a));
  }

  // ----- fitEllipsoid -----

  /** `vertices.T`: the x, y and z coordinates of the vertices, one row per axis. */
  function Transposed(vs: seq<Point>): (A: seq<seq<real>>)
    ensures |A| == 3 && Rectangular(A, |vs|)
  {
    [Coordinates(vs, 0), Coordinates(vs, 1), Coordinates(vs, 2)]
  }

  /** `np.cov(A)`: entry (i, j) is the sample covariance of rows i and j of `A`. */
  function Covariances(A: seq<seq<real>>, N: nat): (sigma: Matrix)
    requires N >= 2 && Rectangular(A, N)
    ensures |sigma| == |A| && Rectangular(sigma, |A|)
    ensures forall i, j :: 0 <= i < |A| && 0 <= j < |A| ==> sigma[i][j] == sigma[j][i]
    ensures forall i :: 0 <= i < |A| ==> sigma[i][i] >= 0.0
  {
    CovarianceProperties(A, N);
    seq(|A|, i requires 0 <= i < |A| => seq(|A|, j requires 0 <= j < |A| => Cov(A[i], A[j])))
  }

  lemma CovarianceProperties(A: seq<seq<real>>, N: nat)
    requires N >= 2 && Rectangular(A, N)
    ensures forall i, j :: 0 <= i < |A| && 0 <= j < |A| ==> Cov(A[i], A[j]) == Cov(A[j], A[i])
    ensures forall i :: 0 <= i < |A| ==> Cov(A[i], A[i]) >= 0.0
  {
    forall i, j | 0 <= i < |A| && 0 <= j < |A| ensures Cov(A[i], A[j]) == Cov(A[j], A[i]) {
      CovProperties(A[i], A[j]);
    }
    forall i | 0 <= i < |A| ensures Cov(A[i], A[i]) >= 0.0 {
      CovProperties(A[i], A[i]);
    }
  }

  /** The dispersion matrix: entry (i, j) is the sample covariance of coordinates i and j of the vertices. */
  function Dispersion(vs: seq<Point>): (sigma: Matrix)
    requires |vs| >= 2
    ensures Symmetric(sigma)
    ensures forall i :: 0 <= i < 3 ==> sigma[i][i] >= 0.0
  {
    Covariances(Transposed(vs), |vs|)
  }

  /**
   * `fitEllipsoid` for a grain with vertices `vs` and `n` voxels: the centre is
   * where the vertex coordinates' deviations cancel on each axis, and the
   * dispersion matrix is symmetric with non-negative variances on its diagonal.
   */
  function FitEllipsoid(vs: seq<Point>, n: nat, num: Numerics): (e: EllipsoidFit)
    requires |vs| >= 2
    ensures Sum(Deviations(Coordinates(vs, 0), e.muX)) == 0.0
    ensures Sum(Deviations(Coordinates(vs, 1), e.muY)) == 0.0
    ensures Sum(Deviations(Coordinates(vs, 2), e.muZ)) == 0.0
    ensures Symmetric(e.sigma)
    ensures forall i :: 0 <= i < 3 ==> e.sigma[i][i] >= 0.0
  {
    var xs, ys, zs := Coordinates(vs, 0), Coordinates(vs, 1), Coordinates(vs, 2);
    DeviationsFromMeanCancel(xs);
    DeviationsFromMeanCancel(ys);
    DeviationsFromMeanCancel(zs);
    var sigma := Dispersion(vs);
    EllipsoidFit(Mean(xs), Mean(ys), Mean(zs), sigma, num.semiAxes(sigma, n))
  }

  /** The fitted centre lies in the bounding box of the grain's vertices. */
  lemma CentreInBoundingBox(vs: seq<Point>, n: nat, num: Numerics, lo: Point, hi: Point)
    requires |vs| >= 2
    requires forall k :: 0 <= k < |vs| ==>
      lo.x <= vs[k].x <= hi.x && lo.y <= vs[k].y <= hi.y && lo.z <= vs[k].z <= hi.z
    ensures var e := FitEllipsoid(vs, n, num);
      && lo.x as real <= e.muX <= hi.x as real
      && lo.y as real <= e.muY <= hi.y as real
      && lo.z as real <= e.muZ <= hi.z as real
  {
    MeanBounds(Coordinates(vs, 0), lo.x as real, hi.x as real);
    MeanBounds(Coordinates(vs, 1), lo.y as real, hi.y as real);
    MeanBounds(Coordinates(vs, 2), lo.z as real, hi.z as real);
  }

  // ----- The dispersion matrix is positive semi-definite -----

  /** The dot product `x · v`. */
  function Dot(x: seq<real>, v: seq<real>): real
    requires |x| == |v|
  {
    if x == [] then 0.0 else Dot(x[..|x| - 1], v[..|x| - 1]) + x[|x| - 1] * v[|x| - 1]
  }

  /** The products `m[i] · v` of the rows of `m` with `v`. */
  function Rows(m: Matrix, v: seq<real>): (r: seq<real>)
    requires Rectangular(m, |v|)
    ensures |r| == |m|
  {
    seq(|m|, i requires 0 <= i < |m| => Dot(m[i], v))
  }

  /** The quadratic form `v^T m v` of a square matrix `m`. */
  function Quadratic(m: Matrix, v: seq<real>): real
    requires |m| == |v| && Rectangular(m, |v|)
  {
    Dot(Rows(m, v), v)
  }

  /** `x` with every entry multiplied by `k`. */
  function Scaled(k: real, x: seq<real>): (y: seq<real>)
    ensures |y| == |x|
  {
    seq(|x|, j requires 0 <= j < |x| => k * x[j])
  }

  lemma {:induction false} DotZero(x: seq<real>, v: seq<real>)
    requires |x| == |v|
    requires forall j :: 0 <= j < |x| ==> x[j] == 0.0
    ensures Dot(x, v) == 0.0
  {
    if x != [] {
      DotZero(x[..|x| - 1], v[..|x| - 1]);
    }
  }

  lemma {:induction false} AddStep(y: real, x: real, g: real, yl: real, xl: real, gl: real, w: real)
    requires y == x + g && yl == xl + gl
    ensures y + yl * w == (x + xl * w) + (g + gl * w)
  {
  }

  /** The dot product is additive: `y == x + g` entrywise gives `y · v == x · v + g · v`. */
  lemma {:induction false} DotAdd(y: seq<real>, x: seq<real>, g: seq<real>, v: seq<real>)
    requires |y| == |x| == |g| == |v|
    requires forall j :: 0 <= j < |y| ==> y[j] == x[j] + g[j]
    ensures Dot(y, v) == Dot(x, v) + Dot(g, v)
  {
    if y != [] {
      var n := |y| - 1;
      DotAdd(y[..n], x[..n], g[..n], v[..n]);
      AddStep(Dot(y[..n], v[..n]), Dot(x[..n], v[..n]), Dot(g[..n], v[..n]), y[n], x[n], g[n], v[n]);
    }
  }

  lemma {:induction false} ScaleStep(d: real, yl: real, xl: real, w: real, k: real)
    requires yl == k * xl
    ensures k * d + yl * w == k * (d + xl * w)
  {
  }

  /** The dot product is homogeneous: `y == k x` entrywise gives `y · v == k (x · v)`. */
  lemma {:induction false} DotScale(y: seq<real>, x: seq<real>, v: seq<real>, k: real)
    requires |y| == |x| == |v|
    requires forall j :: 0 <= j < |y| ==> y[j] == k * x[j]
    ensures Dot(y, v) == k * Dot(x, v)
  {
    if y != [] {
      var n := |y| - 1;
      DotScale(y[..n], x[..n], v[..n], k);
      ScaleStep(Dot(x[..n], v[..n]), y[n], x[n], v[n], k);
    }
  }

  /** `m == k s`, entry by entry. */
  predicate ScaledBy(m: Matrix, s: Matrix, k: real)
    requires |m| == |s| && Rectangular(m, |m|) && Rectangular(s, |m|)
  {
    forall i, j :: 0 <= i < |m| && 0 <= j < |m| ==> m[i][j] == k * s[i][j]
  }

  /** Entries `k` times larger give a quadratic form `k` times larger. */
  lemma {:induction false} QuadraticScale(m: Matrix, s: Matrix, v: seq<real>, k: real)
    requires |m| == |s| == |v| && Rectangular(m, |v|) && Rectangular(s, |v|) && ScaledBy(m, s, k)
    ensures Quadratic(m, v) == k * Quadratic(s, v)
  {
    forall i | 0 <= i < |m| ensures Rows(m, v)[i] == k * Rows(s, v)[i] {
      DotScale(m[i], s[i], v, k);
    }
    DotScale(Rows(m, v), Rows(s, v), v, k);
  }

  /** The dot product is additive in the matrix: `c == b + g` entrywise gives `v^T c v == v^T b v + v^T g v`. */
  lemma {:induction false} QuadraticAdd(c: Matrix, b: Matrix, g: Matrix, v: seq<real>)
    requires |c| == |b| == |g| == |v| && Rectangular(c, |v|) && Rectangular(b, |v|) && Rectangular(g, |v|)
    requires forall i, j :: 0 <= i < |c| && 0 <= j < |v| ==> c[i][j] == b[i][j] + g[i][j]
    ensures Quadratic(c, v) == Quadratic(b, v) + Quadratic(g, v)
  {
    forall i | 0 <= i < |c| ensures Rows(c, v)[i] == Rows(b, v)[i] + Rows(g, v)[i] {
      DotAdd(c[i], b[i], g[i], v);
    }
    DotAdd(Rows(c, v), Rows(b, v), Rows(g, v), v);
  }

  /** The outer product `e e^T`. */
  function Outer(e: seq<real>): (o: Matrix)
    ensures |o| == |e| && Rectangular(o, |e|)
  {
    seq(|e|, i requires 0 <= i < |e| => Scaled(e[i], e))
  }

  lemma {:induction false} Commute(x: real, y: real)
    ensures x * y == y * x
  {
  }

  /** Row `i` of `e e^T` times `v` is `(e · v) e[i]`. */
  lemma {:induction false} OuterRows(e: seq<real>, v: seq<real>)
    requires |e| == |v|
    ensures forall i :: 0 <= i < |e| ==> Rows(Outer(e), v)[i] == Dot(e, v) * e[i]
  {
    forall i | 0 <= i < |e| ensures Rows(Outer(e), v)[i] == Dot(e, v) * e[i] {
      DotScale(Outer(e)[i], e, v, e[i]);
      Commute(e[i], Dot(e, v));
    }
  }

  /** The quadratic form of `e e^T` is `(e · v)^2`. */
  lemma {:induction false} QuadraticOuter(e: seq<real>, v: seq<real>)
    requires |e| == |v|
    ensures Quadratic(Outer(e), v) == Dot(e, v) * Dot(e, v)
  {
    OuterRows(e, v);
    DotScale(Rows(Outer(e), v), e, v, Dot(e, v));
  }

  /** The first `n` values of every row of `A`. */
  function Prefix(A: seq<seq<real>>, N: nat, n: nat): (B: seq<seq<real>>)
    requires Rectangular(A, N) && n <= N
    ensures |B| == |A| && Rectangular(B, n)
  {
    seq(|A|, i requires 0 <= i < |A| => A[i][..n])
  }

  /** Column `k` of `A`: value `k` of every row. */
  function Column(A: seq<seq<real>>, N: nat, k: nat): (c: seq<real>)
    requires Rectangular(A, N) && k < N
    ensures |c| == |A|
  {
    seq(|A|, i requires 0 <= i < |A| => A[i][k])
  }

  /** The deviation of column `k` of `A` from the centre `M`. */
  function DeviationAt(A: seq<seq<real>>, N: nat, M: seq<real>, k: nat): (e: seq<real>)
    requires Rectangular(A, N) && |M| == |A| && k < N
    ensures |e| == |A|
  {
    seq(|A|, i requires 0 <= i < |A| => A[i][k] - M[i])
  }

  /** The matrix of deviation product sums of the rows of `A` about the centre `M`. */
  function CoSums(A: seq<seq<real>>, N: nat, M: seq<real>): (c: Matrix)
    requires Rectangular(A, N) && |M| == |A|
    ensures |c| == |A| && Rectangular(c, |A|)
  {
    seq(|A|, i requires 0 <= i < |A| => seq(|A|, j requires 0 <= j < |A| => CoSum(A[i], A[j], M[i], M[j])))
  }

  /** The columns of `A` projected on direction `v`: `Column(A, N, k) · v` for every `k`. */
  function Projected(A: seq<seq<real>>, N: nat, v: seq<real>): (p: seq<real>)
    requires Rectangular(A, N) && |v| == |A|
    ensures |p| == N
  {
    seq(N, k requires 0 <= k < N => Dot(Column(A, N, k), v))
  }

  /** The last step of a deviation product sum, at a given length. */
  lemma {:induction false} CoSumStep(a: seq<real>, b: seq<real>, ma: real, mb: real, n: nat)
    requires |a| == |b| == n + 1
    ensures CoSum(a, b, ma, mb) == CoSum(a[..n], b[..n], ma, mb) + (a[n] - ma) * (b[n] - mb)
  {
  }

  /** `c == b + e e^T`, entry by entry. */
  predicate AddsOuter(c: Matrix, b: Matrix, e: seq<real>)
    requires |c| == |b| == |e| && Rectangular(c, |e|) && Rectangular(b, |e|)
  {
    forall i, j :: 0 <= i < |c| && 0 <= j < |c| ==> c[i][j] == b[i][j] + Outer(e)[i][j]
  }

  /** Adding `e e^T` adds `(e · v)^2` to the quadratic form. */
  lemma {:induction false} QuadraticAddOuter(c: Matrix, b: Matrix, e: seq<real>, v: seq<real>)
    requires |c| == |b| == |e| == |v| && Rectangular(c, |e|) && Rectangular(b, |e|) && AddsOuter(c, b, e)
    ensures Quadratic(c, v) == Quadratic(b, v) + Dot(e, v) * Dot(e, v)
  {
    QuadraticAdd(c, b, Outer(e), v);
    QuadraticOuter(e, v);
  }

  /** One more column adds `e e^T` to the matrix of sums, where `e` is the column's deviation. */
  lemma {:induction false} CoSumsStep(A: seq<seq<real>>, N: nat, M: seq<real>)
    requires Rectangular(A, N) && |M| == |A| && N > 0
    ensures AddsOuter(CoSums(A, N, M), CoSums(Prefix(A, N, N - 1), N - 1, M), DeviationAt(A, N, M, N - 1))
  {
    var c, b, o := CoSums(A, N, M), CoSums(Prefix(A, N, N - 1), N - 1, M), Outer(DeviationAt(A, N, M, N - 1));
    forall i, j | 0 <= i < |A| && 0 <= j < |A| ensures c[i][j] == b[i][j] + o[i][j] {
      CoSumsEntryStep(A, N, M, i, j);
    }
  }

  /** Entry (i, j) of `CoSumsStep`. */
  lemma {:induction false} CoSumsEntryStep(A: seq<seq<real>>, N: nat, M: seq<real>, i: nat, j: nat)
    requires Rectangular(A, N) && |M| == |A| && N > 0 && i < |A| && j < |A|
    ensures CoSums(A, N, M)[i][j] == CoSums(Prefix(A, N, N - 1), N - 1, M)[i][j] + Outer(DeviationAt(A, N, M, N - 1))[i][j]
  {
    CoSumStep(A[i], A[j], M[i], M[j], N - 1);
  }

  /** One more column adds the square of its projected deviation to the quadratic form of the sums. */
  lemma {:induction false} QuadraticStep(A: seq<seq<real>>, N: nat, M: seq<real>, v: seq<real>)
    requires Rectangular(A, N) && |M| == |A| == |v| && N > 0
    ensures Quadratic(CoSums(A, N, M), v)
      == Quadratic(CoSums(Prefix(A, N, N - 1), N - 1, M), v) + Dot(DeviationAt(A, N, M, N - 1), v) * Dot(DeviationAt(A, N, M, N - 1), v)
  {
    var c, b, e := CoSums(A, N, M), CoSums(Prefix(A, N, N - 1), N - 1, M), DeviationAt(A, N, M, N - 1);
    CoSumsStep(A, N, M);
    assert |c| == |b| == |e| == |v| && Rectangular(c, |e|) && Rectangular(b, |e|);
    QuadraticAddOuter(c, b, e, v);
  }

  /** The projection of a prefix is the prefix of the projection. */
  lemma {:induction false} ProjectedPrefix(A: seq<seq<real>>, N: nat, v: seq<real>, n: nat)
    requires Rectangular(A, N) && |v| == |A| && n <= N
    ensures Projected(A, N, v)[..n] == Projected(Prefix(A, N, n), n, v)
  {
    forall k | 0 <= k < n ensures Projected(A, N, v)[k] == Projected(Prefix(A, N, n), n, v)[k] {
      assert Column(A, N, k) == Column(Prefix(A, N, n), n, k);
    }
  }

  /** A projected column's deviation from the projected centre is the projection of its deviation. */
  lemma {:induction false} ProjectedDeviation(A: seq<seq<real>>, N: nat, M: seq<real>, v: seq<real>, k: nat)
    requires Rectangular(A, N) && |M| == |A| == |v| && k < N
    ensures Projected(A, N, v)[k] - Dot(M, v) == Dot(DeviationAt(A, N, M, k), v)
  {
    DotAdd(Column(A, N, k), M, DeviationAt(A, N, M, k), v);
  }

  /** One more column adds the square of its projected deviation to the projected sum of squares. */
  lemma {:induction false} ProjectedStep(A: seq<seq<real>>, N: nat, M: seq<real>, v: seq<real>)
    requires Rectangular(A, N) && |M| == |A| == |v| && N > 0
    ensures CoSum(Projected(A, N, v), Projected(A, N, v), Dot(M, v), Dot(M, v))
      == CoSum(Projected(Prefix(A, N, N - 1), N - 1, v), Projected(Prefix(A, N, N - 1), N - 1, v), Dot(M, v), Dot(M, v))
        + Dot(DeviationAt(A, N, M, N - 1), v) * Dot(DeviationAt(A, N, M, N - 1), v)
  {
    var p, q, c, d := Projected(A, N, v), Projected(Prefix(A, N, N - 1), N - 1, v), Dot(M, v), Dot(DeviationAt(A, N, M, N - 1), v);
    ProjectedPrefix(A, N, v, N - 1);
    ProjectedDeviation(A, N, M, v, N - 1);
    assert |p| == N && p[..N - 1] == q && p[N - 1] - c == d;
    SquareStep(p, q, c, d, N - 1);
  }

  /** The last step of a sum of squared deviations, with the prefix and the last deviation named. */
  lemma {:induction false} SquareStep(p: seq<real>, q: seq<real>, c: real, d: real, n: nat)
    requires |p| == n + 1 && p[..n] == q && p[n] - c == d
    ensures CoSum(p, p, c, c) == CoSum(q, q, c, c) + d * d
  {
    CoSumStep(p, p, c, c, n);
  }

  /**
   * The quadratic form of the deviation product sums in direction `v` is the
   * sum of squared deviations of the columns projected on `v` about the
   * projected centre.
   */
  lemma {:induction false} QuadraticOfCoSums(A: seq<seq<real>>, N: nat, M: seq<real>, v: seq<real>)
    requires Rectangular(A, N) && |M| == |A| == |v|
    ensures var p, c := Projected(A, N, v), Dot(M, v);
      Quadratic(CoSums(A, N, M), v) == CoSum(p, p, c, c)
    decreases N
  {
    if N == 0 {
      var s := CoSums(A, 0, M);
      forall i | 0 <= i < |A| ensures Rows(s, v)[i] == 0.0 {
        DotZero(s[i], v);
      }
      DotZero(Rows(s, v), v);
    } else {
      QuadraticOfCoSums(Prefix(A, N, N - 1), N - 1, M, v);
      ProjectedStep(A, N, M, v);
      QuadraticStep(A, N, M, v);
    }
  }

  /** A sample covariance times `n - 1` is the deviation product sum about the means. */
  lemma {:induction false} CovTimesCount(a: seq<real>, b: seq<real>, n: nat)
    requires |a| == |b| == n >= 2
    ensures CoSum(a, b, Mean(a), Mean(b)) == (n - 1) as real * Cov(a, b)
  {
  }

  /** The row means of `A`. */
  function Centre(A: seq<seq<real>>, N: nat): (M: seq<real>)
    requires N > 0 && Rectangular(A, N)
    ensures |M| == |A|
  {
    seq(|A|, i requires 0 <= i < |A| => Mean(A[i]))
  }

  /** The deviation product sums about the row means are `N - 1` times the covariances. */
  lemma {:induction false} CoSumsOfCovariances(A: seq<seq<real>>, N: nat)
    requires N >= 2 && Rectangular(A, N)
    ensures ScaledBy(CoSums(A, N, Centre(A, N)), Covariances(A, N), (N - 1) as real)
  {
    forall i, j | 0 <= i < |A| && 0 <= j < |A|
      ensures CoSums(A, N, Centre(A, N))[i][j] == (N - 1) as real * Covariances(A, N)[i][j]
    {
      CoSumsEntryOfCovariance(A, N, i, j);
    }
  }

  /** Entry (i, j) of `CoSumsOfCovariances`. */
  lemma {:induction false} CoSumsEntryOfCovariance(A: seq<seq<real>>, N: nat, i: nat, j: nat)
    requires N >= 2 && Rectangular(A, N) && i < |A| && j < |A|
    ensures CoSums(A, N, Centre(A, N))[i][j] == (N - 1) as real * Covariances(A, N)[i][j]
  {
    assert CoSums(A, N, Centre(A, N))[i][j] == CoSum(A[i], A[j], Mean(A[i]), Mean(A[j]));
    assert Covariances(A, N)[i][j] == Cov(A[i], A[j]);
    CovTimesCount(A[i], A[j], N);
  }

  /** The quadratic form of the deviation product sums is never negative. */
  lemma {:induction false} CoSumsNonNegative(A: seq<seq<real>>, N: nat, M: seq<real>, v: seq<real>)
    requires Rectangular(A, N) && |M| == |A| == |v|
    ensures Quadratic(CoSums(A, N, M), v) >= 0.0
  {
    QuadraticOfCoSums(A, N, M, v);
    CoSumSelfNonNegative(Projected(A, N, v), Dot(M, v));
  }

  /** A positive multiple of a matrix whose quadratic form is non-negative in direction `v`. */
  lemma {:induction false} ScaledNonNegative(m: Matrix, s: Matrix, v: seq<real>, k: real)
    requires |m| == |s| == |v| && Rectangular(m, |v|) && Rectangular(s, |v|) && ScaledBy(m, s, k)
    requires k > 0.0 && Quadratic(m, v) >= 0.0
    ensures Quadratic(s, v) >= 0.0
  {
    QuadraticScale(m, s, v, k);
    PositiveFactor(k, Quadratic(s, v));
  }

  /**
   * A covariance matrix is positive semi-definite: its quadratic form is
   * never negative, whatever the direction `v`.
   */
  lemma {:induction false} CovariancesPositiveSemidefinite(A: seq<seq<real>>, N: nat, v: seq<real>)
    requires N >= 2 && Rectangular(A, N) && |v| == |A|
    ensures Quadratic(Covariances(A, N), v) >= 0.0
  {
    CoSumsOfCovariances(A, N);
    CoSumsNonNegative(A, N, Centre(A, N), v);
    ScaledNonNegative(CoSums(A, N, Centre(A, N)), Covariances(A, N), v, (N - 1) as real);
  }

  lemma {:induction false} PositiveFactor(k: real, q: real)
    requires k > 0.0 && k * q >= 0.0
    ensures q >= 0.0
  {
  }

  /** The dispersion matrix of every grain is positive semi-definite. */
  lemma {:induction false} DispersionPositiveSemidefinite(vs: seq<Point>, v: seq<real>)
    requires |vs| >= 2 && |v| == 3
    ensures Quadratic(Dispersion(vs), v) >= 0.0
  {
    CovariancesPositiveSemidefinite(Transposed(vs), |vs|, v);
  }

  // ----- Per-grain summaries -----

  function MinAxis(L: Axes): real {
    if L.l1 <= L.l2 && L.l1 <= L.l3 then L.l1 else if L.l2 <= L.l3 then L.l2 else L.l3
  }

  function MaxAxis(L: Axes): real {
    if L.l1 >= L.l2 && L.l1 >= L.l3 then L.l1 else if L.l2 >= L.l3 then L.l2 else L.l3
  }

  /**
   * The test `min(L)/max(L) < 1`. When every axis is zero numpy divides 0 by 0,
   * giving NaN, and NaN < 1 is false: such a grain is skipped too.
   */
  predicate NotSphere(L: SemiAxes) {
    MaxAxis(L) > 0.0 && MinAxis(L) / MaxAxis(L) < 1.0
  }

  /** A grain is kept exactly when its semi-axes are not all equal. */
  lemma NotSphereIff(L: SemiAxes)
    ensures NotSphere(L) <==> MinAxis(L) < MaxAxis(L)
  {
    if MaxAxis(L) > 0.0 {
      RatioBounds(MinAxis(L), MaxAxis(L));
    }
  }

  /** A quotient of a non-negative `m` by a larger positive `M` lies in [0, 1], and is below 1 exactly when `m < M`. */
  lemma RatioBounds(m: real, M: real)
    requires 0.0 <= m <= M && M > 0.0
    ensures 0.0 <= m / M <= 1.0
    ensures m / M < 1.0 <==> m < M
  {
    var q := m / M;
    assert q * M == m;
    assert (q - 1.0) * M == m - M;
    if q < 1.0 {
      assert (1.0 - q) * M > 0.0;
    } else {
      assert (q - 1.0) * M >= 0.0;
    }
  }

  /** `min(L)/max(L)`: the aspect ratio, between 0 and 1. */
  function AspectRatio(L: SemiAxes): (r: real)
    requires MaxAxis(L) > 0.0
    ensures 0.0 <= r <= 1.0
    ensures r == 1.0 <==> MinAxis(L) == MaxAxis(L)
  {
    RatioBounds(MinAxis(L), MaxAxis(L));
    MinAxis(L) / MaxAxis(L)
  }

  /** `np.cbrt(np.prod(L)) * 2 * res`: the equivalent diameter in physical units. */
  function EquivalentDiameter(L: Axes, res: real, cbrt: real -> real): real {
    cbrt(L.l1 * L.l2 * L.l3) * 2.0 * res
  }

  /** The semi-axes fitted to grain `g`. */
  function GrainAxes(pre: Preprocessed, g: int, num: Numerics): SemiAxes
    requires WellFormed(pre) && g in pre.rve
  {
    FitEllipsoid(pre.vertices[g], |pre.rve[g]|, num).axes
  }

  /** What one grain contributes to the samples: nothing, or a diameter and an aspect ratio for its phase. */
  datatype GrainSummary = Skipped | Sampled(phase: int, diameter: real, ratio: real)

  /**
   * The per-grain test and values of `fitPhase` for a grain of phase `phase`
   * whose fitted semi-axes are `L`: unless `min(L)/max(L) < 1` fails, its
   * equivalent diameter and aspect ratio. A grain is sampled exactly when its
   * semi-axes are not all equal, under its own phase, with an aspect ratio
   * below one.
   */
  function Summarize(L: SemiAxes, phase: int, res: real, cbrt: real -> real): (r: GrainSummary)
    ensures r.Sampled? <==> MinAxis(L) < MaxAxis(L)
    ensures r.Sampled? ==> r.phase == phase && 0.0 <= r.ratio < 1.0 && r.ratio == MinAxis(L) / MaxAxis(L)
    ensures r.Sampled? ==> r.diameter == EquivalentDiameter(L, res, cbrt)
  {
    NotSphereIff(L);
    if NotSphere(L) then Sampled(phase, EquivalentDiameter(L, res, cbrt), AspectRatio(L)) else Skipped
  }

  predicate AllGrains(pre: Preprocessed, gs: seq<int>) {
    forall k :: 0 <= k < |gs| ==> gs[k] in pre.rve
  }

  /** The summaries of the grains `gs`, in that order. */
  function Summaries(pre: Preprocessed, gs: seq<int>, res: real, num: Numerics): seq<GrainSummary>
    requires WellFormed(pre) && AllGrains(pre, gs)
  {
    seq(|gs|, k requires 0 <= k < |gs| => Summarize(GrainAxes(pre, gs[k], num), pre.phases[gs[k]], res, num.cbrt))
  }

  /** The sampled grains of phase `p`, in grain order. */
  function SamplesOf(ss: seq<GrainSummary>, p: int): (r: seq<GrainSummary>)
    ensures forall k :: 0 <= k < |r| ==> r[k].Sampled? && r[k].phase == p && r[k] in ss
    ensures |r| <= |ss|
  {
    if ss == [] then []
    else
      var s := ss[|ss| - 1];
      var prev := SamplesOf(ss[..|ss| - 1], p);
      if s.Sampled? && s.phase == p then prev + [s] else prev
  }

  /** The phases that have a sampled grain, each once, by first appearance. */
  function PhaseKeys(ss: seq<GrainSummary>): seq<int> {
    if ss == [] then []
    else
      var s := ss[|ss| - 1];
      var prev := PhaseKeys(ss[..|ss| - 1]);
      if s.Sampled? && s.phase !in prev then prev + [s.phase] else prev
  }

  function Diameters(ss: seq<GrainSummary>): seq<real>
    requires forall k :: 0 <= k < |ss| ==> ss[k].Sampled?
  {
    seq(|ss|, k requires 0 <= k < |ss| => ss[k].diameter)
  }

  function Ratios(ss: seq<GrainSummary>): seq<real>
    requires forall k :: 0 <= k < |ss| ==> ss[k].Sampled?
  {
    seq(|ss|, k requires 0 <= k < |ss| => ss[k].ratio)
  }

  // ----- fitPhase -----

  /**
   * `fitPhase`: for every grain in dictionary order, fit its ellipsoid and, if it
   * is not a sphere, append its equivalent diameter to `d[phase]` and its
   * aspect ratio to `a[phase]`. Position j of `d[p]` and of `a[p]` both come
   * from the j-th sampled grain of phase p.
   */
  method FitPhase(pre: Preprocessed, res: real, num: Numerics) returns (s: PhaseSamples)
    requires WellFormed(pre)
    ensures AllGrains(pre, pre.order)
    ensures var ss := Summaries(pre, pre.order, res, num);
      && s.keys == PhaseKeys(ss)
      && (forall p :: p in s.d <==> p in s.keys)
      && (forall p :: p in s.a <==> p in s.keys)
      && (forall p | p in s.d :: s.d[p] == Diameters(SamplesOf(ss, p)))
      && (forall p | p in s.a :: s.a[p] == Ratios(SamplesOf(ss, p)))
  {
    forall k | 0 <= k < |pre.order| ensures pre.order[k] in pre.rve {
      assert pre.order[k] in pre.order;
    }
    ghost var ss := Summaries(pre, pre.order, res, num);
    var d: map<int, seq<real>> := map[];
    var a: map<int, seq<real>> := map[];
    var keys: seq<int> := [];
    ghost var done: seq<GrainSummary> := [];
    var i := 0;
    while i < |pre.order|
      invariant 0 <= i <= |pre.order|
      invariant done == ss[..i]
      invariant Tracks(done, keys, d, a)
    {
      var id := pre.order[i];
      var fit := FitEllipsoid(pre.vertices[id], |pre.rve[id]|, num);
      var grain := Summarize(fit.axes, pre.phases[id], res, num.cbrt);
      assert grain == ss[i];
      PrefixStep(ss, i);
      ghost var keys0, d0, a0 := keys, d, a;
      if grain.Sampled? {
        var p := grain.phase;
        if p in d {
          d := d[p := d[p] + [grain.diameter]];
        } else {
          d := d[p := [grain.diameter]];
          keys := keys + [p];
        }
        if p in a {
          a := a[p := a[p] + [grain.ratio]];
        } else {
          a := a[p := [grain.ratio]];
        }
      }
      TracksStep(done, grain, keys0, d0, a0, keys, d, a);
      done := done + [grain];
      i := i + 1;
    }
    assert ss[..i] == ss;
    return PhaseSamples(keys, d, a);
  }

  /**
   * The state of the loop of `fitPhase` after the grains summarised by `done`:
   * the keys are the sampled phases by first appearance, and `d[p]`, `a[p]` hold
   * the diameters and ratios of the sampled grains of phase p, in grain order.
   */
  ghost predicate Tracks(done: seq<GrainSummary>, keys: seq<int>, d: map<int, seq<real>>, a: map<int, seq<real>>) {
    && keys == PhaseKeys(done)
    && (forall p :: p in d <==> p in keys)
    && (forall p :: p in a <==> p in keys)
    && (forall p | p in d :: d[p] == Diameters(SamplesOf(done, p)))
    && (forall p | p in a :: a[p] == Ratios(SamplesOf(done, p)))
  }

  /** One pass of the loop body of `fitPhase` keeps the dictionaries in step with the grains seen. */
  lemma TracksStep(done: seq<GrainSummary>, g: GrainSummary, keys: seq<int>, d: map<int, seq<real>>, a: map<int, seq<real>>,
                   keys': seq<int>, d': map<int, seq<real>>, a': map<int, seq<real>>)
    requires Tracks(done, keys, d, a)
    requires g.Skipped? ==> keys' == keys && d' == d && a' == a
    requires g.Sampled? ==>
      && keys' == (if g.phase in d then keys else keys + [g.phase])
      && d' == d[g.phase := if g.phase in d then d[g.phase] + [g.diameter] else [g.diameter]]
      && a' == a[g.phase := if g.phase in a then a[g.phase] + [g.ratio] else [g.ratio]]
    ensures Tracks(done + [g], keys', d', a')
  {
    PhaseKeysStep(done, g);
    if g.Sampled? {
      PhaseKeysMembers(done, g.phase);
      DiametersStep(done, g, d, d');
      RatiosStep(done, g, a, a');
    } else {
      forall q ensures SamplesOf(done + [g], q) == SamplesOf(done, q) {
        SamplesOfStep(done, g, q);
      }
    }
  }

  lemma PrefixStep<T>(s: seq<T>, i: nat)
    requires i < |s|
    ensures s[..i + 1] == s[..i] + [s[i]]
  {
  }

  lemma PhaseKeysStep(ss: seq<GrainSummary>, s: GrainSummary)
    ensures PhaseKeys(ss + [s]) ==
      if s.Sampled? && s.phase !in PhaseKeys(ss) then PhaseKeys(ss) + [s.phase] else PhaseKeys(ss)
  {
    assert (ss + [s])[..|ss|] == ss;
  }

  lemma SamplesOfStep(ss: seq<GrainSummary>, s: GrainSummary, p: int)
    ensures SamplesOf(ss + [s], p) == if s.Sampled? && s.phase == p then SamplesOf(ss, p) + [s] else SamplesOf(ss, p)
  {
    assert (ss + [s])[..|ss|] == ss;
  }

  /** Appending a sampled grain's diameter under its phase keeps `d` in step with the samples. */
  lemma DiametersStep(done: seq<GrainSummary>, g: GrainSummary, d: map<int, seq<real>>, d': map<int, seq<real>>)
    requires g.Sampled?
    requires forall q | q in d :: d[q] == Diameters(SamplesOf(done, q))
    requires g.phase !in d ==> SamplesOf(done, g.phase) == []
    requires d' == d[g.phase := if g.phase in d then d[g.phase] + [g.diameter] else [g.diameter]]
    ensures forall q | q in d' :: d'[q] == Diameters(SamplesOf(done + [g], q))
  {
    forall q | q in d' ensures d'[q] == Diameters(SamplesOf(done + [g], q)) {
      SamplesOfStep(done, g, q);
      if q == g.phase {
        ProjectionsAppend(SamplesOf(done, q), g);
      }
    }
  }

  /** Appending a sampled grain's aspect ratio under its phase keeps `a` in step with the samples. */
  lemma RatiosStep(done: seq<GrainSummary>, g: GrainSummary, a: map<int, seq<real>>, a': map<int, seq<real>>)
    requires g.Sampled?
    requires forall q | q in a :: a[q] == Ratios(SamplesOf(done, q))
    requires g.phase !in a ==> SamplesOf(done, g.phase) == []
    requires a' == a[g.phase := if g.phase in a then a[g.phase] + [g.ratio] else [g.ratio]]
    ensures forall q | q in a' :: a'[q] == Ratios(SamplesOf(done + [g], q))
  {
    forall q | q in a' ensures a'[q] == Ratios(SamplesOf(done + [g], q)) {
      SamplesOfStep(done, g, q);
      if q == g.phase {
        ProjectionsAppend(SamplesOf(done, q), g);
      }
    }
  }

  lemma ProjectionsAppend(ss: seq<GrainSummary>, s: GrainSummary)
    requires forall k :: 0 <= k < |ss| ==> ss[k].Sampled?
    requires s.Sampled?
    ensures Diameters(ss + [s]) == Diameters(ss) + [s.diameter]
    ensures Ratios(ss + [s]) == Ratios(ss) + [s.ratio]
  {
  }

  // ----- Properties of the samples -----

  /** A phase is a key exactly when one of its grains is sampled. */
  lemma {:induction false} PhaseKeysMembers(ss: seq<GrainSummary>, p: int)
    ensures p in PhaseKeys(ss) <==> SamplesOf(ss, p) != []
    ensures p in PhaseKeys(ss) <==> exists k :: 0 <= k < |ss| && ss[k].Sampled? && ss[k].phase == p
  {
    if ss != [] {
      var init := ss[..|ss| - 1];
      PhaseKeysMembers(init, p);
      assert forall k :: 0 <= k < |init| ==> init[k] == ss[k];
    }
  }

  /**
   * For every phase key of `fitPhase`, `d[p]` and `a[p]` are equally long and
   * not empty, and every aspect ratio in `a[p]` lies in [0, 1).
   */
  lemma PhaseSamplesShape(pre: Preprocessed, res: real, num: Numerics, p: int)
    requires WellFormed(pre) && AllGrains(pre, pre.order)
    requires p in PhaseKeys(Summaries(pre, pre.order, res, num))
    ensures var r := SamplesOf(Summaries(pre, pre.order, res, num), p);
      && |Diameters(r)| == |Ratios(r)| > 0
      && forall j :: 0 <= j < |r| ==> 0.0 <= Ratios(r)[j] < 1.0
  {
    var ss := Summaries(pre, pre.order, res, num);
    var r := SamplesOf(ss, p);
    PhaseKeysMembers(ss, p);
    forall j | 0 <= j < |r| ensures 0.0 <= Ratios(r)[j] < 1.0 {
      assert r[j] in ss;
      var m :| 0 <= m < |ss| && ss[m] == r[j];
    }
  }

  /** No phase is listed twice. */
  lemma {:induction false} PhaseKeysDistinct(ss: seq<GrainSummary>)
    ensures Distinct(PhaseKeys(ss))
  {
    if ss != [] {
      PhaseKeysDistinct(ss[..|ss| - 1]);
    }
  }

  /** The samples of phase `p` are exactly the sampled summaries of that phase. */
  lemma {:induction false} SamplesOfMembers(ss: seq<GrainSummary>, p: int)
    ensures forall s :: s in SamplesOf(ss, p) <==> s in ss && s.Sampled? && s.phase == p
  {
    if ss != [] {
      var init := ss[..|ss| - 1];
      SamplesOfMembers(init, p);
      assert ss == init + [ss[|ss| - 1]];
    }
  }

  /** Samples keep grain order: those of a concatenation are those of each part, in turn. */
  lemma {:induction false} SamplesOfConcat(front: seq<GrainSummary>, back: seq<GrainSummary>, p: int)
    ensures SamplesOf(front + back, p) == SamplesOf(front, p) + SamplesOf(back, p)
  {
    if back == [] {
      assert front + back == front;
    } else {
      var init := back[..|back| - 1];
      SamplesOfConcat(front, init, p);
      assert (front + back)[..|front + back| - 1] == front + init;
    }
  }
}
