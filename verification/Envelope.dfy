/** Envelope statistics of a block (extract), over exact reals. */
module Envelope {
  import opened RealSums
  import opened ComplexNumbers
  import opened RealFunctions

  /** Start value of the running minimum (1e30). */
  const HUGE: real := 1000000000000000.0 * 1000000000000000.0
  /** Squared means at or below this leave the normalised variance at zero (1e-30). */
  const MEAN_GUARD: real := 1.0 / 1000000000000000.0 / 1000000000000000.0
  /** Extremes whose sum is at or below this leave the AM index at zero (1e-12). */
  const EXTREMES_GUARD: real := 1.0 / 1000000000000.0

  datatype EnvelopeStats = EnvelopeStats(mean: real, variance: real, varianceNorm: real, amIndex: real)

  function Magnitudes(x: seq<Complex>, sqrt: real -> real): (r: seq<real>)
    ensures |r| == |x| && forall i :: 0 <= i < |r| ==> r[i] == sqrt(x[i].Norm())
  {
    seq(|x|, i requires 0 <= i < |x| => sqrt(x[i].Norm()))
  }

  function RunningMin(env: seq<real>): (m: real)
    ensures m <= HUGE && forall i :: 0 <= i < |env| ==> m <= env[i]
    ensures m == HUGE || m in env
  {
    if env == [] then HUGE
    else
      var n := |env| - 1;
      assert forall i :: 0 <= i < n ==> env[..n][i] == env[i];
      if env[n] < RunningMin(env[..n]) then env[n] else RunningMin(env[..n])
  }

  function RunningMax(env: seq<real>): (m: real)
    ensures m >= 0.0 && forall i :: 0 <= i < |env| ==> m >= env[i]
    ensures m == 0.0 || m in env
  {
    if env == [] then 0.0
    else
      var n := |env| - 1;
      assert forall i :: 0 <= i < n ==> env[..n][i] == env[i];
      if env[n] > RunningMax(env[..n]) then env[n] else RunningMax(env[..n])
  }

  function NormalisedVariance(variance: real, mean: real): real {
    if mean * mean > MEAN_GUARD then variance / (mean * mean) else 0.0
  }

  function AmIndex(lo: real, hi: real): real {
    if hi + lo > EXTREMES_GUARD then (hi - lo) / (hi + lo) else 0.0
  }

  function StatsOf(env: seq<real>): EnvelopeStats
    requires env != []
  {
    EnvelopeStats(Mean(env), VarianceOf(env), NormalisedVariance(VarianceOf(env), Mean(env)),
                  AmIndex(RunningMin(env), RunningMax(env)))
  }

  // ----- the Bhatia-Davis inequality

  predicate Within(v: real, lo: real, hi: real) {
    lo <= v <= hi
  }

  /** A squared deviation from mean m lies below a line in t, for every t between lo and hi. */
  lemma DeviationBelowLine(t: real, lo: real, hi: real, m: real, u: real, v: real, d: real, dd: real, bound: real)
    requires Within(t, lo, hi) && d == t - m && dd == d * d
    requires u == lo + hi - 2.0 * m && v == m * m - lo * hi && bound == u * t + v * 1.0
    ensures dd <= bound
  {
    var a, b := t - lo, hi - t;
    var ab := a * b;
    assert ab >= 0.0;
    assert bound - dd == ab;
  }

  function LineThrough(env: seq<real>, u: real, v: real): (r: seq<real>)
    ensures |r| == |env| && forall i :: 0 <= i < |r| ==> r[i] == u * env[i] + v * 1.0
  {
    seq(|env|, i requires 0 <= i < |env| => u * env[i] + v * 1.0)
  }

  lemma LineCombination(env: seq<real>, ones: seq<real>, u: real, v: real)
    requires |ones| == |env| && forall i :: 0 <= i < |ones| ==> ones[i] == 1.0
    ensures Combination(LineThrough(env, u, v), env, ones, u, v)
  {
  }

  lemma LineSum(env: seq<real>, u: real, v: real)
    ensures Sum(LineThrough(env, u, v)) == u * Sum(env) + v * (|env| as real)
  {
    hide RealSums.Sum, Combination, LineThrough;
    var ones := seq(|env|, i => 1.0);
    SumConstant(ones, 1.0);
    LineCombination(env, ones, u, v);
    SumLinear(LineThrough(env, u, v), env, ones, u, v);
  }

  lemma DeviationsBelowLine(env: seq<real>, lo: real, hi: real, d: seq<real>, m: real, u: real, v: real)
    requires env != [] && d == Deviations(env) && m == Mean(env)
    requires forall i :: 0 <= i < |env| ==> Within(env[i], lo, hi)
    requires u == lo + hi - 2.0 * m && v == m * m - lo * hi
    ensures Sum(Times(d, d)) <= Sum(LineThrough(env, u, v))
  {
    hide RealSums.Sum, Within, Mean;
    var line := LineThrough(env, u, v);
    forall i | 0 <= i < |env|
      ensures Times(d, d)[i] <= line[i]
    {
      DeviationBelowLine(env[i], lo, hi, m, u, v, d[i], Times(d, d)[i], line[i]);
    }
    SumMonotone(Times(d, d), line);
  }

  predicate BhatiaDavis(variance: real, mean: real, lo: real, hi: real) {
    variance <= (hi - mean) * (mean - lo)
  }

  lemma AverageBelow(q: real, s: real, t: real, sum: real, n: real, m: real, lo: real, hi: real, u: real, v: real)
    requires n > 0.0 && q * n == s && s <= t && m * n == sum
    requires t == u * sum + v * n && u == lo + hi - 2.0 * m && v == m * m - lo * hi
    ensures BhatiaDavis(q, m, lo, hi)
  {
    var bound := (hi - m) * (m - lo);
    assert bound == u * m + v;
    assert t == bound * n;
    if q > bound {
      PositiveProduct(q - bound, n, q * n - bound * n);
    }
  }

  lemma VarianceBoundBy(env: seq<real>, lo: real, hi: real, m: real, u: real, v: real)
    requires env != [] && forall i :: 0 <= i < |env| ==> Within(env[i], lo, hi)
    requires m == Mean(env) && u == lo + hi - 2.0 * m && v == m * m - lo * hi
    ensures BhatiaDavis(VarianceOf(env), m, lo, hi)
  {
    hide RealSums.Sum, Within, Mean, RealSums.VarianceOf, LineThrough, BhatiaDavis;
    var d := Deviations(env);
    DeviationsBelowLine(env, lo, hi, d, m, u, v);
    LineSum(env, u, v);
    MeanTimesCount(env);
    VarianceTimesCount(env, d);
    AverageBelow(VarianceOf(env), Sum(Times(d, d)), Sum(LineThrough(env, u, v)), Sum(env), |env| as real, m, lo, hi,
                 u, v);
  }

  /** The variance of values between lo and hi is at most (hi - mean) * (mean - lo). */
  lemma VarianceBound(env: seq<real>, lo: real, hi: real)
    requires env != [] && forall i :: 0 <= i < |env| ==> Within(env[i], lo, hi)
    ensures BhatiaDavis(VarianceOf(env), Mean(env), lo, hi)
  {
    hide *;
    var m := Mean(env);
    VarianceBoundBy(env, lo, hi, m, lo + hi - 2.0 * m, m * m - lo * hi);
  }

  // ----- variance against modulation index

  /** varianceNorm * (1 - amIndex^2) <= amIndex^2 */
  predicate VarianceWithinIndex(varianceNorm: real, amIndex: real) {
    varianceNorm * (1.0 - amIndex * amIndex) <= amIndex * amIndex
  }

  lemma EnvelopeInequality(q: real, m: real, lo: real, hi: real, vn: real, am: real)
    requires BhatiaDavis(q, m, lo, hi) && hi >= lo >= 0.0
    requires m > 0.0 && vn * (m * m) == q
    requires hi + lo > 0.0 && am * (hi + lo) == hi - lo
    ensures VarianceWithinIndex(vn, am)
  {
    var s, w := hi + lo, hi - lo;
    var f := 4.0 * (hi * lo);
    assert f >= 0.0;
    ProductOfBound(f, q, (hi - m) * (m - lo));
    var slack := s * m - 2.0 * (hi * lo);
    assert (w * m) * (w * m) - f * ((hi - m) * (m - lo)) == slack * slack;
    assert f * q <= (w * m) * (w * m);
    assert f == s * s - w * w;
    ScaledInequality(vn, am, s, w, m, q);
  }

  lemma ProductOfBound(f: real, a: real, b: real)
    requires f >= 0.0 && a <= b
    ensures f * a <= f * b
  {
  }

  lemma ScaledInequality(vn: real, am: real, s: real, w: real, m: real, q: real)
    requires s > 0.0 && m > 0.0 && am * s == w && vn * (m * m) == q
    requires (s * s - w * w) * q <= (w * m) * (w * m)
    ensures VarianceWithinIndex(vn, am)
  {
    var p := (s * m) * (s * m);
    PositiveProduct(s, m, s * m);
    PositiveSquare(s * m, p);
    var a2 := am * am;
    assert w * w == a2 * (s * s);
    assert (s * s - w * w) * q == (vn * (1.0 - a2)) * p;
    assert (w * m) * (w * m) == a2 * p;
    if vn * (1.0 - a2) > a2 {
      PositiveProduct(vn * (1.0 - a2) - a2, p, (vn * (1.0 - a2)) * p - a2 * p);
    }
  }

  ghost predicate NonNegative(env: seq<real>) {
    forall i :: 0 <= i < |env| ==> env[i] >= 0.0
  }

  lemma ExtremesEnclose(env: seq<real>)
    requires env != [] && NonNegative(env)
    ensures 0.0 <= RunningMin(env) <= RunningMax(env)
    ensures forall i :: 0 <= i < |env| ==> Within(env[i], RunningMin(env), RunningMax(env))
  {
    assert RunningMin(env) <= env[0] <= RunningMax(env);
  }

  lemma MeanPositive(env: seq<real>)
    requires env != [] && NonNegative(env)
    ensures Mean(env) >= 0.0
  {
    SumNonNegative(env);
  }

  lemma SquareGuardPositive(m: real)
    requires m >= 0.0 && m * m > MEAN_GUARD
    ensures m > 0.0
  {
    if m == 0.0 {
      ZeroSquare(m);
    }
  }

  lemma ZeroSquare(m: real)
    requires m == 0.0
    ensures m * m == 0.0
  {
  }

  lemma IndexMeaning(lo: real, hi: real)
    requires 0.0 <= lo <= hi
    ensures 0.0 <= AmIndex(lo, hi) <= 1.0
    ensures hi + lo > EXTREMES_GUARD ==> AmIndex(lo, hi) * (hi + lo) == hi - lo
    ensures hi + lo <= EXTREMES_GUARD ==> AmIndex(lo, hi) == 0.0
  {
  }

  /** The index and the normalised variance of magnitudes whose extremes are lo and hi, cleared of divisions. */
  lemma StatsOfExtremes(env: seq<real>, lo: real, hi: real)
    requires lo in env && hi in env && 0.0 <= lo && hi <= HUGE
    requires forall i :: 0 <= i < |env| ==> lo <= env[i] <= hi
    ensures var s := StatsOf(env);
            && (if lo + hi > 1.0 / 1000000000000.0 then s.amIndex * (lo + hi) == hi - lo else s.amIndex == 0.0)
            && (s.mean * s.mean > MEAN_GUARD ==> s.varianceNorm * (s.mean * s.mean) == s.variance)
  {
    hide AmIndex, NormalisedVariance, RunningMin, RunningMax, StatsOf;
    ExtremesFound(env, lo, hi);
    StatsParts(env);
    IndexMeaning(lo, hi);
    var s := StatsOf(env);
    if s.mean * s.mean > MEAN_GUARD {
      NormalisedMeaning(s.variance, s.mean);
    }
  }

  lemma ExtremesFound(env: seq<real>, lo: real, hi: real)
    requires lo in env && hi in env && 0.0 <= lo && hi <= HUGE
    requires forall i :: 0 <= i < |env| ==> lo <= env[i] <= hi
    ensures RunningMin(env) == lo <= hi == RunningMax(env)
  {
  }

  lemma StatsParts(env: seq<real>)
    requires env != []
    ensures var s := StatsOf(env);
            && s.amIndex == AmIndex(RunningMin(env), RunningMax(env))
            && s.varianceNorm == NormalisedVariance(s.variance, s.mean)
  {
    hide AmIndex, NormalisedVariance, RunningMin, RunningMax, RealSums.VarianceOf, Mean;
  }

  lemma NoVariance(am: real)
    ensures VarianceWithinIndex(0.0, am)
  {
  }

  lemma NormalisedMeaning(q: real, m: real)
    requires m * m > MEAN_GUARD
    ensures NormalisedVariance(q, m) * (m * m) == q
  {
    ClearQuotient(NormalisedVariance(q, m), q, m * m);
  }

  /**
   Once the extremes clear their guard, the normalised variance v and the AM index a of any block
   satisfy  v * (1 - a^2) <= a^2: a large variance needs a large index.
   */
  lemma VarianceNeedsIndex(env: seq<real>)
    requires env != [] && NonNegative(env) && RunningMax(env) + RunningMin(env) > EXTREMES_GUARD
    ensures VarianceWithinIndex(StatsOf(env).varianceNorm, StatsOf(env).amIndex)
  {
    hide NonNegative, Within, RealSums.VarianceOf, Mean, BhatiaDavis, AmIndex, NormalisedVariance, VarianceWithinIndex,
         RunningMin, RunningMax;
    var lo, hi, q, m := RunningMin(env), RunningMax(env), VarianceOf(env), Mean(env);
    ExtremesEnclose(env);
    VarianceBound(env, lo, hi);
    MeanPositive(env);
    IndexMeaning(lo, hi);
    VarianceNeedsIndexBy(q, m, lo, hi);
  }

  lemma VarianceNeedsIndexBy(q: real, m: real, lo: real, hi: real)
    requires BhatiaDavis(q, m, lo, hi) && 0.0 <= lo <= hi && m >= 0.0 && hi + lo > EXTREMES_GUARD
    ensures VarianceWithinIndex(NormalisedVariance(q, m), AmIndex(lo, hi))
  {
    hide BhatiaDavis, AmIndex, VarianceWithinIndex;
    IndexMeaning(lo, hi);
    if m * m > MEAN_GUARD {
      SquareGuardPositive(m);
      NormalisedMeaning(q, m);
      EnvelopeInequality(q, m, lo, hi, NormalisedVariance(q, m), AmIndex(lo, hi));
    } else {
      NoVariance(AmIndex(lo, hi));
    }
  }

  lemma SmallIndexBoundsVariance(v: real, a: real)
    requires VarianceWithinIndex(v, a) && 0.0 <= a < 0.05
    ensures v <= 0.25
  {
    var b := a * a;
    ProductOfOrdered(a, 0.05, a, 0.05);
    if v > 0.25 {
      ProductOfOrdered(0.25, v, 0.9975, 1.0 - b);
    }
  }

  /**
   A block of large variance looks like a suppressed-carrier signal (index below 0.05) exactly when its
   extremes fail their guard: the index was never computed.
   */
  lemma SuppressedCarrierCondition(env: seq<real>)
    requires env != [] && NonNegative(env)
    ensures StatsOf(env).varianceNorm > 0.25 ==>
              (StatsOf(env).amIndex < 0.05 <==> RunningMax(env) + RunningMin(env) <= EXTREMES_GUARD)
  {
    hide NonNegative, RealSums.VarianceOf, Mean, AmIndex, NormalisedVariance, VarianceWithinIndex, RunningMin,
      RunningMax;
    ExtremesEnclose(env);
    IndexMeaning(RunningMin(env), RunningMax(env));
    if RunningMax(env) + RunningMin(env) > EXTREMES_GUARD {
      VarianceNeedsIndex(env);
      if StatsOf(env).amIndex < 0.05 {
        SmallIndexBoundsVariance(StatsOf(env).varianceNorm, StatsOf(env).amIndex);
      }
    }
  }

  /** Such blocks exist: two near-silent samples, 0 and half the guard. */
  lemma NearSilentBlock(env: seq<real>, g: real)
    requires g == EXTREMES_GUARD / 4.0 && env == [0.0, 2.0 * g]
    ensures StatsOf(env) == EnvelopeStats(g, g * g, 1.0, 0.0)
  {
    PairSum(0.0, 2.0 * g);
    assert Mean(env) == g;
    var d := Deviations(env);
    assert d == [-g, g];
    assert Times(d, d) == [g * g, g * g];
    PairSum(g * g, g * g);
    assert VarianceOf(env) == g * g;
    assert env[..1] == [0.0] && env[..1][..0] == [];
    assert RunningMax(env) == 2.0 * g;
    assert RunningMin(env[..1]) == 0.0;
    assert RunningMin(env) == 0.0;
    UnitVariance(VarianceOf(env), Mean(env));
  }

  lemma UnitVariance(q: real, g: real)
    requires g == EXTREMES_GUARD / 4.0 && q == g * g
    ensures NormalisedVariance(q, g) == 1.0
  {
    assert g == 0.00000000000025;
    assert g * g > MEAN_GUARD;
    SelfQuotient(q, g * g);
  }

  // ----- the measurement

  method MeasureEnvelope(x: seq<Complex>, sqrt: real -> real) returns (stats: EnvelopeStats, std: real)
    requires x != [] && IsSquareRoot(sqrt)
    ensures stats == StatsOf(Magnitudes(x, sqrt))
    ensures std == sqrt(VarianceOf(Magnitudes(x, sqrt)))
  {
    hide IsSquareRoot, RealSums.Sum, RealSums.Dot, NormalisedVariance, AmIndex;
    var n := |x|;
    var env, envSum, envMin, envMax := ScanEnvelope(x, sqrt);
    var mean := envSum / n as real;
    assert mean == Mean(env[..]);
    hide Mean;
    var sumOfSquares := SquaredDeviations(env, n, mean);
    var variance := sumOfSquares / n as real;
    std := sqrt(variance);
    stats := EnvelopeStats(mean, variance, NormalisedVariance(variance, mean), AmIndex(envMin, envMax));
  }

  method ScanEnvelope(x: seq<Complex>, sqrt: real -> real)
    returns (env: array<real>, envSum: real, envMin: real, envMax: real)
    ensures env.Length == |x| && env[..] == Magnitudes(x, sqrt) && envSum == Sum(env[..])
    ensures envMin == RunningMin(env[..]) && envMax == RunningMax(env[..])
  {
    hide Complex.Norm, RealSums.Sum;
    ghost var mags := Magnitudes(x, sqrt);
    var n := |x|;
    env := new real[n];
    envMin, envMax, envSum := HUGE, 0.0, 0.0;
    SumEmpty();
    for i := 0 to n
      invariant env[..i] == mags[..i]
      invariant envSum == Sum(mags[..i])
      invariant envMin == RunningMin(mags[..i]) && envMax == RunningMax(mags[..i])
    {
      assert mags[..i + 1][..i] == mags[..i];
      SumStep(mags, i);
      var e := sqrt(x[i].Norm());
      env[i] := e;
      envSum := envSum + e;
      if e < envMin {
        envMin := e;
      }
      if e > envMax {
        envMax := e;
      }
    }
    assert mags[..n] == mags;
  }

  method SquaredDeviations(env: array<real>, n: nat, mean: real) returns (variance: real)
    requires 0 < n == env.Length && mean == Mean(env[..])
    ensures variance == Dot(Deviations(env[..]), Deviations(env[..]))
  {
    hide Mean, RealSums.Dot;
    ghost var d := Deviations(env[..]);
    variance := 0.0;
    DotStart(d, d);
    for i := 0 to n
      invariant variance == Dot(d[..i], d[..i])
    {
      DotStep(d, d, i, env[i] - mean, env[i] - mean);
      variance := variance + (env[i] - mean) * (env[i] - mean);
    }
  }
}
