/**
 * Scoring of RVEs against the experimental reference and selection of the
 * best one (evaluate.py).
 *
 * `RVE_difference` adds, for every phase present in the size samples, a
 * fraction-weighted Hellinger distance between the fitted and the reference
 * size distributions (lognormal) and likewise for shape (beta); the error is
 * the mean of the two sums. The driver loop keeps a running minimum of the
 * error over the RVEs. Fitting a distribution to samples and the Hellinger
 * distances themselves are library code this model does not interpret: they are
 * the functions of a `Stats` value.
 */
module Evaluate {
  import opened Wrappers
  import opened Ellipsoid
  import opened Preprocessing

  /** Reference lognormal (mu, sigma) and beta (alpha, beta) parameters and phase fractions, phase i at index i - 1. */
  const Mu: seq<real> := [0.50, 0.91, -0.3, 0.81]
  const Sigma: seq<real> := [0.75, 0.57, 0.79, 0.80]
  const Alpha: seq<real> := [3.82, 3.54, 3.72, 3.08]
  const Beta: seq<real> := [2.99, 2.85, 3.24, 3.13]
  const Fraction: seq<real> := [0.09, 0.08, 0.23, 0.45]

  /** `np.sum(fraction)`. */
  const FractionTotal: real := Fraction[0] + Fraction[1] + Fraction[2] + Fraction[3]

  /** The starting value of `min_error`, `1e10`. */
  const InitialMinError: real := 10000000000.0

  /** The library functions `util.fit_lognorm`, `util.hellinger_lognorm`, `util.fit_beta`, `util.hellinger_beta`. */
  datatype Stats = Stats(
    fitLognorm: seq<real> -> (real, real),
    hellingerLognorm: (real, real, real, real) -> real,
    fitBeta: seq<real> -> (real, real),
    hellingerBeta: (real, real, real, real) -> real)

  /** The exceptions `RVE_difference` can raise: `fraction[i-1]` out of range, or phase `i` missing from a dictionary. */
  datatype EvalError = IndexError(phase: int) | KeyError(phase: int)

  /** Running values of `H_d` and `H_a`. */
  datatype Sums = Sums(hd: real, ha: real)

  /** `H_d`, `H_a` and `E`. */
  datatype Score = Score(hd: real, ha: real, e: real)

  /** `min_error` and `best_RVE` after the driver loop. */
  datatype Selection = Selection(minError: real, best: nat)

  /** The samples' keys list every phase of `d` once, as the phase fitting produces them. */
  predicate WellKeyed(s: PhaseSamples) {
    && Distinct(s.keys)
    && KeysInD(s)
    && (forall i :: i in s.d ==> i in s.keys)
  }

  /** Every listed key is a phase of `d`: the loop of `RVE_difference` runs over the keys of `d`. */
  predicate KeysInD(s: PhaseSamples) {
    forall k :: 0 <= k < |s.keys| ==> s.keys[k] in s.d
  }

  /** Python's `xs[k]`: a negative `k` counts from the end. */
  function At(xs: seq<real>, k: int): real
    requires -|xs| <= k < |xs|
  {
    if k < 0 then xs[|xs| + k] else xs[k]
  }

  /** Phase `i` can index the reference lists at `i - 1` without IndexError: `i` in -3..4. */
  predicate Indexable(i: int) {
    -|Fraction| <= i - 1 < |Fraction|
  }

  /** Hellinger distance between the lognormal fitted to `d[i]` and the reference of phase `i`. */
  function SizeDistance(s: PhaseSamples, i: int, st: Stats): real
    requires i in s.d && Indexable(i)
  {
    var (mu_, sigma_) := st.fitLognorm(s.d[i]);
    st.hellingerLognorm(mu_, At(Mu, i - 1), sigma_, At(Sigma, i - 1))
  }

  /** Hellinger distance between the beta distribution fitted to `a[i]` and the reference of phase `i`. */
  function ShapeDistance(s: PhaseSamples, i: int, st: Stats): real
    requires i in s.a && Indexable(i)
  {
    var (ap_, be_) := st.fitBeta(s.a[i]);
    st.hellingerBeta(ap_, At(Alpha, i - 1), be_, At(Beta, i - 1))
  }

  /** What phase `i` adds to `H_d`: `fraction[i-1] * hellinger_lognorm(...) / np.sum(fraction)`. */
  function SizeTerm(s: PhaseSamples, i: int, st: Stats): real
    requires i in s.d && Indexable(i)
  {
    At(Fraction, i - 1) * SizeDistance(s, i, st) / FractionTotal
  }

  /** What phase `i` adds to `H_a`: `fraction[i-1] * hellinger_beta(...) / np.sum(fraction)`. */
  function ShapeTerm(s: PhaseSamples, i: int, st: Stats): real
    requires i in s.a && Indexable(i)
  {
    At(Fraction, i - 1) * ShapeDistance(s, i, st) / FractionTotal
  }

  /**
   * What one pass of the loop body does for phase `i`: the exception it raises,
   * in the order the body meets them (`d[i]`, then `fraction[i-1]`, then
   * `a[i]`), or the size and shape terms it adds.
   */
  function Contribution(s: PhaseSamples, i: int, st: Stats): Result<Sums, EvalError> {
    if i !in s.d then Err(KeyError(i))
    else if !Indexable(i) then Err(IndexError(i))
    else if i !in s.a then Err(KeyError(i))
    else Ok(Sums(SizeTerm(s, i, st), ShapeTerm(s, i, st)))
  }

  /** One pass of a loop body over a phase label. */
  type Step = int -> Result<Sums, EvalError>

  /** The running sums after the loop body has run `c` on the first `n` keys, or the first exception. */
  function Total(keys: seq<int>, n: nat, c: Step): Result<Sums, EvalError>
    requires n <= |keys|
  {
    if n == 0 then Ok(Sums(0.0, 0.0))
    else
      match Total(keys, n - 1, c)
      case Err(e) => Err(e)
      case Ok(acc) =>
        match c(keys[n - 1])
        case Err(e) => Err(e)
        case Ok(t) => Ok(Sums(acc.hd + t.hd, acc.ha + t.ha))
  }

  /** The loop body of `RVE_difference` on samples `s`. */
  function Body(s: PhaseSamples, st: Stats): Step {
    i => Contribution(s, i, st)
  }

  /** `RVE_difference(d, a)` as a value. */
  function Difference(s: PhaseSamples, st: Stats): Result<Score, EvalError> {
    match Total(s.keys, |s.keys|, Body(s, st))
    case Err(e) => Err(e)
    case Ok(h) => Ok(Score(h.hd, h.ha, (h.hd + h.ha) / 2.0))
  }

  /**
   * `RVE_difference`: loop over the phases of `d` in dictionary order, adding the
   * weighted size and shape distances; the error is their mean.
   */
  method RVEDifference(s: PhaseSamples, st: Stats) returns (r: Result<Score, EvalError>)
    requires KeysInD(s)
    ensures r == Difference(s, st)
  {
    var hd, ha := 0.0, 0.0;
    var j := 0;
    while j < |s.keys|
      invariant 0 <= j <= |s.keys|
      invariant Total(s.keys, j, Body(s, st)) == Ok(Sums(hd, ha))
    {
      var i := s.keys[j];
      if !Indexable(i) || i !in s.a {
        BodyRaises(s, st, j);
        return if !Indexable(i) then Err(IndexError(i)) else Err(KeyError(i));
      }
      BodyAdds(s, st, j);
      hd := hd + SizeTerm(s, i, st);
      ha := ha + ShapeTerm(s, i, st);
      j := j + 1;
    }
    return Ok(Score(hd, ha, (hd + ha) / 2.0));
  }

  /** A pass of the loop body on a phase of both dictionaries with an indexable label adds its two terms. */
  lemma BodyAdds(s: PhaseSamples, st: Stats, j: nat)
    requires KeysInD(s) && j < |s.keys| && Total(s.keys, j, Body(s, st)).Ok?
    requires Indexable(s.keys[j]) && s.keys[j] in s.a
    ensures var h := Total(s.keys, j, Body(s, st)).value;
      Total(s.keys, j + 1, Body(s, st)) == Ok(Sums(h.hd + SizeTerm(s, s.keys[j], st), h.ha + ShapeTerm(s, s.keys[j], st)))
  {
    assert Body(s, st)(s.keys[j]) == Contribution(s, s.keys[j], st);
  }

  /** A pass of the loop body on any other phase raises, and `RVE_difference` raises with it. */
  lemma BodyRaises(s: PhaseSamples, st: Stats, j: nat)
    requires KeysInD(s) && j < |s.keys| && Total(s.keys, j, Body(s, st)).Ok?
    requires !Indexable(s.keys[j]) || s.keys[j] !in s.a
    ensures Difference(s, st) == if !Indexable(s.keys[j]) then Err(IndexError(s.keys[j])) else Err(KeyError(s.keys[j]))
  {
    assert Body(s, st)(s.keys[j]) == Contribution(s, s.keys[j], st);
    TotalStopsAtError(s.keys, j + 1, |s.keys|, Body(s, st));
  }

  /** Once an exception is raised, the remaining keys cannot undo it. */
  lemma {:induction false} TotalStopsAtError(keys: seq<int>, n: nat, m: nat, c: Step)
    requires n <= m <= |keys|
    requires Total(keys, n, c).Err?
    ensures Total(keys, m, c) == Total(keys, n, c)
  {
    if n < m {
      TotalStopsAtError(keys, n, m - 1, c);
    }
  }

  /** The total fails exactly when the body fails on some key, and then with the first failure. */
  lemma {:induction false} FirstError(keys: seq<int>, n: nat, c: Step)
    requires n <= |keys|
    ensures Total(keys, n, c).Err? <==> exists k :: 0 <= k < n && c(keys[k]).Err?
    ensures Total(keys, n, c).Err? ==>
      exists k :: 0 <= k < n && c(keys[k]) == Err(Total(keys, n, c).error) && forall j :: 0 <= j < k ==> c(keys[j]).Ok?
  {
    if n > 0 {
      FirstError(keys, n - 1, c);
      if Total(keys, n - 1, c).Ok? && Total(keys, n, c).Err? {
        assert c(keys[n - 1]) == Err(Total(keys, n, c).error);
      }
    }
  }

  /**
   * `RVE_difference` raises exactly when some phase of `d` faults, and then the
   * exception of the first such phase; otherwise `E` is the mean of `H_d` and `H_a`.
   */
  lemma DifferenceFails(s: PhaseSamples, st: Stats)
    requires WellKeyed(s)
    ensures Difference(s, st).Err? <==> exists k :: 0 <= k < |s.keys| && Contribution(s, s.keys[k], st).Err?
    ensures Difference(s, st).Err? ==>
      exists k :: 0 <= k < |s.keys| && Contribution(s, s.keys[k], st) == Err(Difference(s, st).error)
        && forall j :: 0 <= j < k ==> Contribution(s, s.keys[j], st).Ok?
    ensures Difference(s, st).Ok? ==> Difference(s, st).value.e == (Difference(s, st).value.hd + Difference(s, st).value.ha) / 2.0
  {
    var c := Body(s, st);
    FirstError(s.keys, |s.keys|, c);
    assert forall i :: c(i) == Contribution(s, i, st);
  }

  /**
   * When every phase of `d` is also a key of `a` (as the phase fitting
   * produces them), the only exception left is IndexError, for a phase label
   * outside -3..4.
   */
  lemma OnlyIndexError(s: PhaseSamples, st: Stats)
    requires WellKeyed(s) && s.a.Keys == s.d.Keys
    ensures Difference(s, st).Err? <==> exists k :: 0 <= k < |s.keys| && !Indexable(s.keys[k])
    ensures Difference(s, st).Err? ==> Difference(s, st).error.IndexError?
  {
    DifferenceFails(s, st);
  }

  /** The samples the phase fitting returns are well keyed, and `d` and `a` have the same phases. */
  lemma FitPhaseWellKeyed(s: PhaseSamples, ss: seq<GrainSummary>)
    requires s.keys == PhaseKeys(ss)
    requires (forall p :: p in s.d <==> p in s.keys) && (forall p :: p in s.a <==> p in s.keys)
    ensures WellKeyed(s) && s.a.Keys == s.d.Keys
  {
    PhaseKeysDistinct(ss);
    assert forall p :: p in s.a.Keys <==> p in s.d.Keys;
  }

  // ----- Order-free reading of the weighted sums -----

  /** `t(p)` if phase `p` is among the first `n` keys, nothing otherwise. */
  function Among(keys: seq<int>, n: nat, p: int, t: int -> Sums): Sums
    requires n <= |keys|
  {
    if p in keys[..n] then t(p) else Sums(0.0, 0.0)
  }

  /** The sums of `t(p)` over the phases 1..4 that are among the first `n` keys. */
  function SumOverPhases(keys: seq<int>, n: nat, t: int -> Sums): Sums
    requires n <= |keys|
  {
    var t1, t2, t3, t4 := Among(keys, n, 1, t), Among(keys, n, 2, t), Among(keys, n, 3, t), Among(keys, n, 4, t);
    Sums(t1.hd + t2.hd + t3.hd + t4.hd, t1.ha + t2.ha + t3.ha + t4.ha)
  }

  /** Over distinct keys in 1..4 on which the body succeeds, the fold's order does not matter. */
  lemma {:induction false} TotalByPhase(keys: seq<int>, n: nat, c: Step, t: int -> Sums)
    requires n <= |keys| && Distinct(keys)
    requires forall k :: 0 <= k < |keys| ==> 1 <= keys[k] <= 4 && c(keys[k]) == Ok(t(keys[k]))
    ensures Total(keys, n, c) == Ok(SumOverPhases(keys, n, t))
  {
    if n > 0 {
      TotalByPhase(keys, n - 1, c, t);
      var i := keys[n - 1];
      assert keys[..n] == keys[..n - 1] + [i];
      assert i !in keys[..n - 1];
      forall p | 1 <= p <= 4
        ensures Among(keys, n, p, t) == if p == i then t(i) else Among(keys, n - 1, p, t)
      {
      }
      var before, after := SumOverPhases(keys, n - 1, t), SumOverPhases(keys, n, t);
      assert after == Sums(before.hd + t(i).hd, before.ha + t(i).ha) by {
        if i == 1 {
        } else if i == 2 {
        } else if i == 3 {
        } else {
        }
      }
    }
  }

  /** What phase `p` adds to `(H_d, H_a)`: its two weighted distances if it is a key of both dictionaries, nothing otherwise. */
  function Share(s: PhaseSamples, p: int, st: Stats): Sums {
    if p in s.d && p in s.a && Indexable(p) then Sums(SizeTerm(s, p, st), ShapeTerm(s, p, st)) else Sums(0.0, 0.0)
  }

  /**
   * With every phase label in 1..4 and present in both dictionaries, `H_d` and
   * `H_a` are the sums over the four phases of `fraction[p-1] / sum(fraction)`
   * times the size and shape distances, counting only phases present in `d`,
   * whatever order the dictionaries hold.
   */
  lemma DifferenceByPhase(s: PhaseSamples, st: Stats)
    requires WellKeyed(s)
    requires forall i :: i in s.d ==> 1 <= i <= 4 && i in s.a
    ensures Difference(s, st).Ok?
    ensures Difference(s, st).value.hd == Share(s, 1, st).hd + Share(s, 2, st).hd + Share(s, 3, st).hd + Share(s, 4, st).hd
    ensures Difference(s, st).value.ha == Share(s, 1, st).ha + Share(s, 2, st).ha + Share(s, 3, st).ha + Share(s, 4, st).ha
  {
    var t := p => Share(s, p, st);
    TotalByPhase(s.keys, |s.keys|, Body(s, st), t);
    assert s.keys[..|s.keys|] == s.keys;
    forall p | 1 <= p <= 4 ensures Among(s.keys, |s.keys|, p, t) == Share(s, p, st) {
    }
  }

  /** The weights `fraction[i-1] / sum(fraction)` of the four phases add up to one. */
  lemma WeightsSumToOne()
    ensures Fraction[0] / FractionTotal + Fraction[1] / FractionTotal + Fraction[2] / FractionTotal
      + Fraction[3] / FractionTotal == 1.0
  {
  }

  /** A weighted distance in [0, 1] lies between zero and its weight. */
  lemma WeightedBound(w: real, h: real)
    requires 0.0 <= w && 0.0 <= h <= 1.0
    ensures 0.0 <= w * h / FractionTotal <= w / FractionTotal
  {
    assert 0.0 <= w * h <= w;
  }

  /** Distances in [0, 1] give shares between zero and the phase's weight. */
  lemma ShareBound(s: PhaseSamples, p: int, st: Stats)
    requires 1 <= p <= 4
    requires p in s.d && p in s.a ==> 0.0 <= SizeDistance(s, p, st) <= 1.0 && 0.0 <= ShapeDistance(s, p, st) <= 1.0
    ensures 0.0 <= Share(s, p, st).hd <= Fraction[p - 1] / FractionTotal
    ensures 0.0 <= Share(s, p, st).ha <= Fraction[p - 1] / FractionTotal
  {
    if p in s.d && p in s.a {
      WeightedBound(Fraction[p - 1], SizeDistance(s, p, st));
      WeightedBound(Fraction[p - 1], ShapeDistance(s, p, st));
    }
  }

  /** Distances in [0, 1] give errors in [0, 1]: the weights are non-negative and sum to one. */
  lemma DifferenceBounded(s: PhaseSamples, st: Stats)
    requires WellKeyed(s)
    requires forall i :: i in s.d ==> 1 <= i <= 4 && i in s.a
    requires forall i :: i in s.d ==> 0.0 <= SizeDistance(s, i, st) <= 1.0 && 0.0 <= ShapeDistance(s, i, st) <= 1.0
    ensures Difference(s, st).Ok?
    ensures var r := Difference(s, st).value; 0.0 <= r.hd <= 1.0 && 0.0 <= r.ha <= 1.0 && 0.0 <= r.e <= 1.0
  {
    DifferenceByPhase(s, st);
    ShareBound(s, 1, st);
    ShareBound(s, 2, st);
    ShareBound(s, 3, st);
    ShareBound(s, 4, st);
    WeightsSumToOne();
  }

  // ----- The driver loop -----

  /**
   * `m` is the least of `1e10` and the errors, and `best` is the first RVE
   * (numbered from 1) that reaches it, or 0 when no error is below `1e10`.
   */
  ghost predicate IsFirstMinimum(errs: seq<real>, m: real, best: nat) {
    && m <= InitialMinError
    && (forall k :: 0 <= k < |errs| ==> m <= errs[k])
    && (best == 0 ==> m == InitialMinError && forall k :: 0 <= k < |errs| ==> errs[k] >= InitialMinError)
    && (best != 0 ==>
          && best <= |errs| && errs[best - 1] == m && m < InitialMinError
          && forall k :: 0 <= k < best - 1 ==> errs[k] > m)
  }

  /** At most one pair (`min_error`, `best_RVE`) fits the description. */
  lemma FirstMinimumUnique(errs: seq<real>, m1: real, b1: nat, m2: real, b2: nat)
    requires IsFirstMinimum(errs, m1, b1) && IsFirstMinimum(errs, m2, b2)
    ensures m1 == m2 && b1 == b2
  {
    if b1 != 0 { assert m2 <= errs[b1 - 1]; }
    if b2 != 0 { assert m1 <= errs[b2 - 1]; }
  }

  /** `(min_error, best_RVE)` after the loop has scored the first `n` RVEs, or the first exception. */
  function Driver(scores: seq<Result<Score, EvalError>>, n: nat): Result<Selection, EvalError>
    requires n <= |scores|
  {
    if n == 0 then Ok(Selection(InitialMinError, 0))
    else
      match Driver(scores, n - 1)
      case Err(e) => Err(e)
      case Ok(sel) =>
        match scores[n - 1]
        case Err(e) => Err(e)
        case Ok(score) => if score.e < sel.minError then Ok(Selection(score.e, n)) else Ok(sel)
  }

  /** The errors `E` of the first `n` RVEs. */
  function ErrorsOf(scores: seq<Result<Score, EvalError>>, n: nat): (errs: seq<real>)
    requires n <= |scores| && forall k :: 0 <= k < n ==> scores[k].Ok?
    ensures |errs| == n
  {
    seq(n, k requires 0 <= k < n => scores[k].value.e)
  }

  /** Once an exception is raised, the remaining RVEs cannot undo it. */
  lemma {:induction false} DriverStopsAtError(scores: seq<Result<Score, EvalError>>, n: nat, m: nat)
    requires n <= m <= |scores|
    requires Driver(scores, n).Err?
    ensures Driver(scores, m) == Driver(scores, n)
  {
    if n < m {
      DriverStopsAtError(scores, n, m - 1);
    }
  }

  /** The loop raises exactly when some RVE's score raises, and then with the first one. */
  lemma {:induction false} DriverFails(scores: seq<Result<Score, EvalError>>, n: nat)
    requires n <= |scores|
    ensures Driver(scores, n).Err? <==> exists k :: 0 <= k < n && scores[k].Err?
    ensures Driver(scores, n).Err? ==>
      exists k :: 0 <= k < n && scores[k] == Err(Driver(scores, n).error) && forall j :: 0 <= j < k ==> scores[j].Ok?
  {
    if n > 0 {
      DriverFails(scores, n - 1);
      if Driver(scores, n - 1).Ok? && Driver(scores, n).Err? {
        assert scores[n - 1] == Err(Driver(scores, n).error);
      }
    }
  }

  /** The running minimum with a strict `<` finds the first RVE of least error. */
  lemma {:induction false} DriverFindsFirstMinimum(scores: seq<Result<Score, EvalError>>, n: nat)
    requires n <= |scores| && forall k :: 0 <= k < n ==> scores[k].Ok?
    ensures Driver(scores, n).Ok?
    ensures IsFirstMinimum(ErrorsOf(scores, n), Driver(scores, n).value.minError, Driver(scores, n).value.best)
  {
    if n > 0 {
      DriverFindsFirstMinimum(scores, n - 1);
      var prev, errs := ErrorsOf(scores, n - 1), ErrorsOf(scores, n);
      assert forall k :: 0 <= k < n - 1 ==> prev[k] == errs[k];
    }
  }

  /** `min_error` never increases from one RVE to the next. */
  lemma {:induction false} MinErrorNonIncreasing(scores: seq<Result<Score, EvalError>>, m: nat, n: nat)
    requires m <= n <= |scores| && Driver(scores, n).Ok?
    ensures Driver(scores, m).Ok? && Driver(scores, n).value.minError <= Driver(scores, m).value.minError
  {
    if m < n {
      MinErrorNonIncreasing(scores, m, n - 1);
    }
  }

  /** What `RVE_difference` gives for each RVE, in order. */
  function Scores(rves: seq<PhaseSamples>, st: Stats): (scores: seq<Result<Score, EvalError>>)
    ensures |scores| == |rves|
  {
    seq(|rves|, k requires 0 <= k < |rves| => Difference(rves[k], st))
  }

  /**
   * The driver loop over the RVEs' samples (RVE i is `rves[i-1]`): score each
   * one, stop at the first exception, and keep the first RVE of least error.
   */
  method SelectBest(rves: seq<PhaseSamples>, st: Stats) returns (r: Result<Selection, EvalError>)
    requires forall k :: 0 <= k < |rves| ==> KeysInD(rves[k])
    ensures r == Driver(Scores(rves, st), |rves|)
  {
    ghost var done: seq<Result<Score, EvalError>> := [];
    var minError := InitialMinError;
    var best: nat := 0;
    var i := 1;
    while i <= |rves|
      invariant 1 <= i <= |rves| + 1
      invariant |done| == i - 1 && ScoresOf(rves, st, done)
      invariant Driver(done, i - 1) == Ok(Selection(minError, best))
    {
      var score := RVEDifference(rves[i - 1], st);
      DriverExtends(done, score);
      done := done + [score];
      if score.Err? {
        DriverOfScores(rves, st, done);
        DriverStopsAtError(Scores(rves, st), i, |rves|);
        return Err(score.error);
      }
      var e := score.value.e;
      if e < minError {
        minError := e;
        best := i;
      }
      i := i + 1;
    }
    DriverOfScores(rves, st, done);
    return Ok(Selection(minError, best));
  }

  /** `done` holds what `RVE_difference` gives for the first `|done|` RVEs. */
  ghost predicate ScoresOf(rves: seq<PhaseSamples>, st: Stats, done: seq<Result<Score, EvalError>>) {
    && |done| <= |rves|
    && (done != [] ==>
          && ScoresOf(rves, st, done[..|done| - 1])
          && done[|done| - 1] == Difference(rves[|done| - 1], st))
  }

  /** Appending one more score leaves the earlier steps alone and runs one more step. */
  lemma DriverExtends(done: seq<Result<Score, EvalError>>, score: Result<Score, EvalError>)
    ensures Driver(done + [score], |done|) == Driver(done, |done|)
    ensures Driver(done + [score], |done| + 1) ==
      match Driver(done, |done|)
      case Err(e) => Err(e)
      case Ok(sel) =>
        match score
        case Err(e) => Err(e)
        case Ok(sc) => if sc.e < sel.minError then Ok(Selection(sc.e, |done| + 1)) else Ok(sel)
    ensures (done + [score])[..|done|] == done
  {
    DriverPrefix(done + [score], done, |done|);
  }

  /** The driver's first `n` steps depend only on the first `n` scores. */
  lemma {:induction false} DriverPrefix(xs: seq<Result<Score, EvalError>>, ys: seq<Result<Score, EvalError>>, n: nat)
    requires n <= |xs| && n <= |ys| && forall k :: 0 <= k < n ==> xs[k] == ys[k]
    ensures Driver(xs, n) == Driver(ys, n)
  {
    if n > 0 {
      DriverPrefix(xs, ys, n - 1);
    }
  }

  /** Scores gathered one by one agree with `Scores(rves, st)`, and so do the driver's steps over them. */
  lemma {:induction false} ScoresOfAgree(rves: seq<PhaseSamples>, st: Stats, done: seq<Result<Score, EvalError>>)
    requires ScoresOf(rves, st, done)
    ensures forall k :: 0 <= k < |done| ==> done[k] == Scores(rves, st)[k]
  {
    if done != [] {
      var init := done[..|done| - 1];
      ScoresOfAgree(rves, st, init);
      assert forall k :: 0 <= k < |init| ==> init[k] == done[k];
    }
  }

  /** The driver over the scores gathered so far agrees with the driver over `Scores(rves, st)`. */
  lemma DriverOfScores(rves: seq<PhaseSamples>, st: Stats, done: seq<Result<Score, EvalError>>)
    requires ScoresOf(rves, st, done)
    ensures Driver(Scores(rves, st), |done|) == Driver(done, |done|)
  {
    ScoresOfAgree(rves, st, done);
    DriverPrefix(Scores(rves, st), done, |done|);
  }

  /** No RVE makes `RVE_difference` raise. */
  predicate AllScored(rves: seq<PhaseSamples>, st: Stats) {
    forall k :: 0 <= k < |rves| ==> Difference(rves[k], st).Ok?
  }

  /** The error `E` of every RVE, in order. */
  function Errors(rves: seq<PhaseSamples>, st: Stats): (errs: seq<real>)
    requires AllScored(rves, st)
    ensures |errs| == |rves|
  {
    seq(|rves|, k requires 0 <= k < |rves| => Difference(rves[k], st).value.e)
  }

  /**
   * The driver loop raises exactly when some RVE's `RVE_difference` raises, and
   * then with the first such exception; otherwise it ends with the least error
   * and the first RVE that reaches it.
   */
  lemma SelectionCorrect(rves: seq<PhaseSamples>, st: Stats)
    ensures Driver(Scores(rves, st), |rves|).Ok? <==> AllScored(rves, st)
    ensures Driver(Scores(rves, st), |rves|).Err? ==>
      exists k :: 0 <= k < |rves| && Difference(rves[k], st) == Err(Driver(Scores(rves, st), |rves|).error)
        && forall j :: 0 <= j < k ==> Difference(rves[j], st).Ok?
    ensures AllScored(rves, st) ==>
      var sel := Driver(Scores(rves, st), |rves|).value;
      IsFirstMinimum(Errors(rves, st), sel.minError, sel.best)
  {
    var scores := Scores(rves, st);
    DriverFails(scores, |rves|);
    assert forall k :: 0 <= k < |rves| ==> scores[k] == Difference(rves[k], st);
    if AllScored(rves, st) {
      DriverFindsFirstMinimum(scores, |rves|);
      assert ErrorsOf(scores, |rves|) == Errors(rves, st);
    }
  }
}
