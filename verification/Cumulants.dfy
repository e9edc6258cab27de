/** Higher-order cumulants of a block of samples (computeCumulants), over exact reals. */
module Cumulants {
  import opened RealSums
  import opened ComplexNumbers

  /** Blocks whose squared mean power is below this are reported as all zeros (1e-30). */
  const POWER_GUARD: real := 1.0 / 1000000000000000.0 / 1000000000000000.0

  /** c40 is kept as one complex number: its real part is c40_real, its imaginary part c40_imag. */
  datatype CumulantSet = CumulantSet(c40: Complex, c41r: real, c42: real)

  const NO_CUMULANTS := CumulantSet(CZERO, 0.0, 0.0)

  datatype Moments = Moments(m20: Complex, m21: real, m40: Complex, m41: Complex, m42: real)

  // The terms each moment accumulates, sample by sample.

  function Squares(x: seq<Complex>): (r: seq<Complex>)
    ensures |r| == |x| && forall i :: 0 <= i < |r| ==> r[i] == x[i].Times(x[i])
  {
    seq(|x|, i requires 0 <= i < |x| => x[i].Times(x[i]))
  }

  function Fourths(x: seq<Complex>): (r: seq<Complex>)
    ensures |r| == |x| && forall i :: 0 <= i < |r| ==> r[i] == x[i].Times(x[i]).Times(x[i]).Times(x[i])
  {
    seq(|x|, i requires 0 <= i < |x| => x[i].Times(x[i]).Times(x[i]).Times(x[i]))
  }

  function Mixed(x: seq<Complex>): (r: seq<Complex>)
    ensures |r| == |x| && forall i :: 0 <= i < |r| ==> r[i] == x[i].Times(x[i]).Times(x[i]).Times(x[i].Conj())
  {
    seq(|x|, i requires 0 <= i < |x| => x[i].Times(x[i]).Times(x[i]).Times(x[i].Conj()))
  }

  function PowerSquares(x: seq<Complex>): (r: seq<real>)
    ensures |r| == |x| && forall i :: 0 <= i < |r| ==> r[i] == x[i].Norm() * x[i].Norm()
  {
    Times(Norms(x), Norms(x))
  }

  function MomentsOf(x: seq<Complex>): Moments
    requires x != []
  {
    var n := |x| as real;
    Moments(ComplexSum(Squares(x)).Over(n), Energy(x) / n, ComplexSum(Fourths(x)).Over(n),
            ComplexSum(Mixed(x)).Over(n), Sum(PowerSquares(x)) / n)
  }

  predicate Normalisable(m: Moments) {
    m.m21 * m.m21 >= POWER_GUARD
  }

  /** The block carries enough power for the cumulants to be normalised. */
  predicate AboveGuard(x: seq<Complex>) {
    x != [] && Normalisable(MomentsOf(x))
  }

  function Normalised(m: Moments): CumulantSet
    requires Normalisable(m)
  {
    var p := m.m21 * m.m21;
    CumulantSet(m.m40.Minus(m.m20.Times(m.m20).ScaledBy(3.0)).Over(p),
                m.m41.Minus(m.m20.ScaledBy(m.m21).ScaledBy(3.0)).re / p,
                (m.m42 - m.m20.Norm() - 2.0 * p) / p)
  }

  function CumulantsOf(x: seq<Complex>): CumulantSet {
    if AboveGuard(x) then Normalised(MomentsOf(x)) else NO_CUMULANTS
  }

  /** The accumulation loop: the five power sums the moments are averages of. */
  method AccumulateMoments(x: seq<Complex>)
    returns (s20: Complex, s21: real, s40: Complex, s41: Complex, s42: real)
    ensures s20 == ComplexSum(Squares(x)) && s21 == Energy(x) && s40 == ComplexSum(Fourths(x))
    ensures s41 == ComplexSum(Mixed(x)) && s42 == Sum(PowerSquares(x))
  {
    hide RealSums.Sum, ComplexSum, Complex.Times, Complex.Norm;
    s20, s40, s41 := CZERO, CZERO, CZERO;
    s21, s42 := 0.0, 0.0;
    SumEmpty();
    ComplexSumEmpty();
    ghost var squares, norms, fourths, mixed, powers := Squares(x), Norms(x), Fourths(x), Mixed(x), PowerSquares(x);
    for i := 0 to |x|
      invariant s20 == ComplexSum(squares[..i])
      invariant s21 == Sum(norms[..i])
      invariant s40 == ComplexSum(fourths[..i])
      invariant s41 == ComplexSum(mixed[..i])
      invariant s42 == Sum(powers[..i])
    {
      ComplexSumStep(squares, i);
      SumStep(norms, i);
      ComplexSumStep(fourths, i);
      ComplexSumStep(mixed, i);
      SumStep(powers, i);
      var s := x[i];
      var mag2 := s.Norm();
      s20 := s20.Plus(s.Times(s));
      s21 := s21 + mag2;
      s40 := s40.Plus(s.Times(s).Times(s).Times(s));
      s41 := s41.Plus(s.Times(s).Times(s).Times(s.Conj()));
      s42 := s42 + mag2 * mag2;
    }
    ComplexSumAll(squares);
    SumAll(norms);
    ComplexSumAll(fourths);
    ComplexSumAll(mixed);
    SumAll(powers);
  }

  /** The cumulants of averaged moments, each divided by the squared mean power. */
  method NormaliseMoments(m: Moments) returns (c40r: real, c40i: real, c41r: real, c42: real)
    requires Normalisable(m)
    ensures CumulantSet(Complex(c40r, c40i), c41r, c42) == Normalised(m)
  {
    var m21sq := m.m21 * m.m21;
    var k40 := m.m40.Minus(m.m20.Times(m.m20).ScaledBy(3.0));
    var k41 := m.m41.Minus(m.m20.ScaledBy(m.m21).ScaledBy(3.0));
    var k42 := m.m42 - m.m20.Norm() - 2.0 * m21sq;
    c40r := k40.re / m21sq;
    c40i := k40.im / m21sq;
    c41r := k41.re / m21sq;
    c42 := k42 / m21sq;
  }

  method ComputeCumulants(x: seq<Complex>) returns (c40r: real, c40i: real, c41r: real, c42: real)
    ensures CumulantSet(Complex(c40r, c40i), c41r, c42) == CumulantsOf(x)
  {
    if |x| == 0 {
      return 0.0, 0.0, 0.0, 0.0;
    }
    hide RealSums.Sum, ComplexSum, Complex.Times, Complex.Norm, Normalised;
    var s20, s21, s40, s41, s42 := AccumulateMoments(x);
    var n := |x| as real;
    var m := Moments(s20.Over(n), s21 / n, s40.Over(n), s41.Over(n), s42 / n);
    assert m == MomentsOf(x);
    var m21sq := m.m21 * m.m21;
    if m21sq < POWER_GUARD {
      return 0.0, 0.0, 0.0, 0.0;
    }
    c40r, c40i, c41r, c42 := NormaliseMoments(m);
  }

  // ----- bounds on the normalised fourth cumulant

  lemma PowerPositive(x: seq<Complex>)
    requires AboveGuard(x)
    ensures x != [] && Energy(x) > 0.0
  {
    EnergyNonNegative(x);
  }

  /** C42 = M42 - |M20|^2 - 2*M21^2, with every average multiplied out. */
  predicate C42Equation(c: real, n: real, energy: real, fourth: real, square: real) {
    c * (energy * energy) == n * fourth - square - 2.0 * (energy * energy)
  }

  /** c42 with the averages cleared: M42, |M20|^2 and M21^2 share the factor 1/N^2. */
  lemma C42FromSums(x: seq<Complex>)
    requires AboveGuard(x)
    ensures C42Equation(CumulantsOf(x).c42, |x| as real, Energy(x), Sum(PowerSquares(x)),
                        ComplexSum(Squares(x)).Norm())
  {
    assert CumulantsOf(x) == Normalised(MomentsOf(x));
    C42OfAverages(MomentsOf(x), ComplexSum(Squares(x)), Energy(x), Sum(PowerSquares(x)), |x| as real);
  }

  lemma C42OfAverages(m: Moments, s: Complex, e: real, f: real, n: real)
    requires Normalisable(m)
    requires n != 0.0 && m.m20 == s.Over(n) && m.m21 == e / n && m.m42 == f / n
    ensures C42Equation(Normalised(m).c42, n, e, f, s.Norm())
  {
    NormOfAverage(s, n);
    ClearAverages(Normalised(m).c42, m.m21, m.m42, m.m20.Norm(), n, e, f, s.Norm());
  }

  lemma ClearAverages(c: real, m21: real, m42: real, a: real, n: real, e: real, f: real, s: real)
    requires m21 * m21 > 0.0
    requires c == (m42 - a - 2.0 * (m21 * m21)) / (m21 * m21)
    requires n != 0.0 && m21 == e / n && m42 == f / n && a * (n * n) == s
    ensures C42Equation(c, n, e, f, s)
  {
    var p, q := m21 * m21, n * n;
    assert e == m21 * n && f == m42 * n;
    assert c * p == m42 - a - 2.0 * p;
    assert e * e == p * q;
    assert c * (p * q) == (c * p) * q;
    assert (c * p) * q == m42 * q - a * q - 2.0 * (p * q);
  }

  lemma NormOfAverage(s: Complex, n: real)
    requires n != 0.0
    ensures s.Over(n).Norm() * (n * n) == s.Norm()
  {
    var a, b := s.re / n, s.im / n;
    assert a * n == s.re && b * n == s.im;
    assert (a * a + b * b) * (n * n) == (a * n) * (a * n) + (b * n) * (b * n);
  }

  /** C40 = M40 - 3*M20^2, with every average multiplied out. */
  predicate C40Equation(c: Complex, n: real, energy: real, fourth: Complex, square: Complex) {
    && C40Part(c.re, n, energy, fourth.re, square.Times(square).re)
    && C40Part(c.im, n, energy, fourth.im, square.Times(square).im)
  }

  predicate C40Part(c: real, n: real, energy: real, fourth: real, squared: real) {
    c * (energy * energy) == n * fourth - 3.0 * squared
  }

  /** Re C41 = Re M41 - 3*Re M20*M21, with every average multiplied out. */
  predicate C41Equation(c: real, n: real, energy: real, mixed: real, square: real) {
    c * (energy * energy) == n * mixed - 3.0 * (square * energy)
  }

  lemma C40FromSums(x: seq<Complex>)
    requires AboveGuard(x)
    ensures C40Equation(CumulantsOf(x).c40, |x| as real, Energy(x), ComplexSum(Fourths(x)), ComplexSum(Squares(x)))
  {
    assert CumulantsOf(x) == Normalised(MomentsOf(x));
    C40OfAverages(MomentsOf(x), ComplexSum(Squares(x)), Energy(x), ComplexSum(Fourths(x)), |x| as real);
  }

  lemma C40OfAverages(m: Moments, s: Complex, e: real, f: Complex, n: real)
    requires Normalisable(m)
    requires n != 0.0 && m.m20 == s.Over(n) && m.m21 == e / n && m.m40 == f.Over(n)
    ensures C40Equation(Normalised(m).c40, n, e, f, s)
  {
    hide Complex.Times, Normalised, Normalisable, C40Part;
    C40OfSquare(m, m.m20.Times(m.m20), s.Times(s), s, e, f, n);
  }

  lemma C40OfSquare(m: Moments, t: Complex, ss: Complex, s: Complex, e: real, f: Complex, n: real)
    requires Normalisable(m) && t == m.m20.Times(m.m20) && ss == s.Times(s)
    requires n != 0.0 && m.m20 == s.Over(n) && m.m21 == e / n && m.m40 == f.Over(n)
    ensures C40Part(Normalised(m).c40.re, n, e, f.re, ss.re) && C40Part(Normalised(m).c40.im, n, e, f.im, ss.im)
  {
    C40Quotients(m, t);
    SquareOfAverage(s, n);
    hide Complex.Times, Normalised, Normalisable, C40Part;
    ClearC40Part(Normalised(m).c40.re, m.m21, m.m40.re, t.re, n, e, f.re, ss.re);
    ClearC40Part(Normalised(m).c40.im, m.m21, m.m40.im, t.im, n, e, f.im, ss.im);
  }

  lemma C40Quotients(m: Moments, t: Complex)
    requires Normalisable(m) && t == m.m20.Times(m.m20)
    ensures m.m21 * m.m21 > 0.0
    ensures Normalised(m).c40.re == (m.m40.re - 3.0 * t.re) / (m.m21 * m.m21)
    ensures Normalised(m).c40.im == (m.m40.im - 3.0 * t.im) / (m.m21 * m.m21)
  {
    hide Complex.Times;
  }

  lemma SquareOfAverage(s: Complex, n: real)
    requires n != 0.0
    ensures s.Over(n).Times(s.Over(n)).re * (n * n) == s.Times(s).re
    ensures s.Over(n).Times(s.Over(n)).im * (n * n) == s.Times(s).im
  {
    var a, b := s.re / n, s.im / n;
    assert a * n == s.re && b * n == s.im;
    assert (a * a - b * b) * (n * n) == (a * n) * (a * n) - (b * n) * (b * n);
    assert (a * b + b * a) * (n * n) == (a * n) * (b * n) + (b * n) * (a * n);
  }

  lemma ClearC40Part(c: real, m21: real, m40: real, t: real, n: real, e: real, f: real, tt: real)
    requires m21 * m21 > 0.0
    requires c == (m40 - 3.0 * t) / (m21 * m21)
    requires n != 0.0 && m21 == e / n && m40 == f / n && t * (n * n) == tt
    ensures C40Part(c, n, e, f, tt)
  {
    var p, q := m21 * m21, n * n;
    assert e == m21 * n && f == m40 * n;
    assert c * p == m40 - 3.0 * t;
    assert e * e == p * q;
    assert c * (p * q) == (c * p) * q;
    assert (c * p) * q == m40 * q - 3.0 * (t * q);
  }

  lemma C41FromSums(x: seq<Complex>)
    requires AboveGuard(x)
    ensures C41Equation(CumulantsOf(x).c41r, |x| as real, Energy(x), ComplexSum(Mixed(x)).re, ComplexSum(Squares(x)).re)
  {
    assert CumulantsOf(x) == Normalised(MomentsOf(x));
    C41OfAverages(MomentsOf(x), ComplexSum(Squares(x)), Energy(x), ComplexSum(Mixed(x)), |x| as real);
  }

  lemma C41OfAverages(m: Moments, s: Complex, e: real, f: Complex, n: real)
    requires Normalisable(m)
    requires n != 0.0 && m.m20 == s.Over(n) && m.m21 == e / n && m.m41 == f.Over(n)
    ensures C41Equation(Normalised(m).c41r, n, e, f.re, s.re)
  {
    var t := m.m21 * m.m20.re;
    var c, p, q := Normalised(m).c41r, m.m21 * m.m21, n * n;
    assert c * p == m.m41.re - 3.0 * t;
    ClearC41(c, m.m21, m.m41.re, m.m20.re, n, e, f.re, s.re);
  }

  lemma ClearC41(c: real, m21: real, m41: real, m20: real, n: real, e: real, f: real, s: real)
    requires c * (m21 * m21) == m41 - 3.0 * (m21 * m20)
    requires n != 0.0 && m21 == e / n && m41 == f / n && m20 == s / n
    ensures C41Equation(c, n, e, f, s)
  {
    assert e == m21 * n && f == m41 * n && s == m20 * n;
    assert c * (e * e) == (c * (m21 * m21)) * (n * n);
    assert (c * (m21 * m21)) * (n * n) == (m41 * n) * n - 3.0 * ((m20 * n) * (m21 * n));
  }

  // ----- bounds on c42

  lemma {:induction false} SquaresBelowSquare(a: seq<real>)
    requires forall i :: 0 <= i < |a| ==> a[i] >= 0.0
    ensures Sum(Times(a, a)) <= Sum(a) * Sum(a)
  {
    if a == [] {
    } else {
      var n := |a| - 1;
      SquaresBelowSquare(a[..n]);
      TimesPrefix(a, a, n);
      SumNonNegative(a[..n]);
      var t, z := Sum(a[..n]), a[n];
      assert t * z >= 0.0;
      assert (t + z) * (t + z) == t * t + 2.0 * (t * z) + z * z;
    }
  }

  lemma {:induction false} SquareBelowSquares(a: seq<real>)
    ensures Sum(a) * Sum(a) <= (|a| as real) * Sum(Times(a, a))
  {
    var ones := seq(|a|, i => 1.0);
    CauchySchwarz(a, ones);
    SumConstant(Times(ones, ones), 1.0);
    assert Times(a, ones) == a;
  }

  lemma SquareMagnitudes(x: seq<Complex>)
    ensures forall i :: 0 <= i < |x| ==>
              Norms(x)[i] >= 0.0 && Squares(x)[i].Norm() == Norms(x)[i] * Norms(x)[i]
  {
    forall i | 0 <= i < |x|
      ensures Norms(x)[i] >= 0.0 && Squares(x)[i].Norm() == Norms(x)[i] * Norms(x)[i]
    {
      NormOfProduct(x[i], x[i]);
      NormNonNegative(x[i]);
    }
  }

  /** What the triangle and Cauchy-Schwarz inequalities say about the power sums of a block. */
  predicate MomentsOrdered(n: real, energy: real, fourth: real, square: real) {
    && 0.0 <= square <= energy * energy
    && energy * energy <= n * fourth
    && fourth <= energy * energy
  }

  lemma PowerSumsOrdered(x: seq<Complex>)
    ensures MomentsOrdered(|x| as real, Energy(x), Sum(PowerSquares(x)), ComplexSum(Squares(x)).Norm())
  {
    SquareMagnitudes(x);
    TriangleInequality(Squares(x), Norms(x));
    NormNonNegative(ComplexSum(Squares(x)));
    SquareBelowSquares(Norms(x));
    SquaresBelowSquare(Norms(x));
  }

  lemma BoundsFromEquation(c: real, n: real, e: real, f: real, s: real)
    requires C42Equation(c, n, e, f, s) && MomentsOrdered(n, e, f, s)
    requires e > 0.0 && n >= 1.0
    ensures -2.0 <= c <= n - 2.0
  {
    PositiveSquare(e, e * e);
    assert n * f <= n * (e * e);
    BoundsFromScaled(c, n, e * e, n * f, s);
  }

  lemma BoundsFromScaled(c: real, n: real, p: real, nf: real, s: real)
    requires p > 0.0 && c * p == nf - s - 2.0 * p
    requires 0.0 <= s <= p && p <= nf <= n * p
    ensures -2.0 <= c <= n - 2.0
  {
    OrderedByFactor(-2.0, c, p);
    assert (n - 2.0) * p == n * p - 2.0 * p;
    OrderedByFactor(c, n - 2.0, p);
  }

  /** For every block above the power guard, -2 <= c42 <= N - 2. */
  lemma C42Bounds(x: seq<Complex>)
    requires AboveGuard(x)
    ensures -2.0 <= CumulantsOf(x).c42 <= |x| as real - 2.0
  {
    hide *;
    C42FromSums(x);
    PowerPositive(x);
    PowerSumsOrdered(x);
    BoundsFromEquation(CumulantsOf(x).c42, |x| as real, Energy(x), Sum(PowerSquares(x)), ComplexSum(Squares(x)).Norm());
  }

  // ----- scaling and rotation

  /** The block after a complex gain: |w| scales its amplitude and arg w rotates its phase. */
  function WithGain(x: seq<Complex>, w: Complex): (y: seq<Complex>)
    ensures |y| == |x| && forall i :: 0 <= i < |y| ==> y[i] == x[i].Times(w)
  {
    seq(|x|, i requires 0 <= i < |x| => x[i].Times(w))
  }

  lemma SquareOfProduct(a: Complex, w: Complex)
    ensures a.Times(w).Times(a.Times(w)) == a.Times(a).Times(w.Times(w))
  {
  }

  lemma FourthIsSquareOfSquare(a: Complex)
    ensures a.Times(a).Times(a).Times(a) == a.Times(a).Times(a.Times(a))
  {
    hide *;
    TimesAssociative(a.Times(a), a, a);
  }

  lemma FourthOfProduct(a: Complex, w: Complex)
    ensures var b := a.Times(w);
            b.Times(b).Times(b).Times(b) ==
            a.Times(a).Times(a).Times(a).Times(w.Times(w).Times(w.Times(w)))
  {
    hide *;
    SquareOfProduct(a, w);
    FourthIsSquareOfSquare(a);
    FourthIsSquareOfSquare(a.Times(w));
    SquareOfProduct(a.Times(a), w.Times(w));
  }

  lemma NormsProportional(x: seq<Complex>, w: Complex, r: real)
    requires r == w.Norm()
    ensures Proportional(Norms(WithGain(x, w)), Norms(x), r)
  {
    hide Complex.Norm, Complex.Times;
    forall i | 0 <= i < |x|
      ensures Norms(WithGain(x, w))[i] == r * Norms(x)[i]
    {
      NormOfProduct(x[i], w);
    }
  }

  lemma EnergyWithGain(x: seq<Complex>, w: Complex, r: real)
    requires r == w.Norm()
    ensures Energy(WithGain(x, w)) == r * Energy(x)
  {
    hide Complex.Norm, Complex.Times, Proportional;
    NormsProportional(x, w, r);
    SumScale(Norms(WithGain(x, w)), Norms(x), r);
  }

  lemma FourthPowerWithGain(x: seq<Complex>, w: Complex, r: real)
    requires r == w.Norm()
    ensures Sum(PowerSquares(WithGain(x, w))) == (r * r) * Sum(PowerSquares(x))
  {
    hide Complex.Norm, Complex.Times, Proportional;
    var a, b := Norms(x), Norms(WithGain(x, w));
    NormsProportional(x, w, r);
    SquaresProportional(a, b, r);
    SumScale(Times(b, b), Times(a, a), r * r);
  }

  lemma SquareWithGain(x: seq<Complex>, w: Complex)
    ensures ComplexSum(Squares(WithGain(x, w))) == ComplexSum(Squares(x)).Times(w.Times(w))
  {
    hide Complex.Norm, Complex.Times;
    forall i | 0 <= i < |x|
      ensures Squares(WithGain(x, w))[i] == Squares(x)[i].Times(w.Times(w))
    {
      SquareOfProduct(x[i], w);
    }
    ComplexSumFactor(Squares(WithGain(x, w)), Squares(x), w.Times(w));
  }

  lemma FourthsWithGain(x: seq<Complex>, w: Complex, g: Complex)
    requires g == w.Times(w).Times(w.Times(w))
    ensures ComplexSum(Fourths(WithGain(x, w))) == ComplexSum(Fourths(x)).Times(g)
  {
    hide Complex.Norm, Complex.Times;
    forall i | 0 <= i < |x|
      ensures Fourths(WithGain(x, w))[i] == Fourths(x)[i].Times(g)
    {
      FourthOfProduct(x[i], w);
    }
    ComplexSumFactor(Fourths(WithGain(x, w)), Fourths(x), g);
  }

  /** How the power sums of a block change under a gain of squared magnitude r. */
  predicate PowerSumsScaled(r: real, e: real, f: real, s: real, ey: real, fy: real, sy: real) {
    ey == r * e && fy == (r * r) * f && sy == (r * r) * s
  }

  lemma SquareNormWithGain(s: Complex, w: Complex, r: real)
    requires r == w.Norm()
    ensures s.Times(w.Times(w)).Norm() == (r * r) * s.Norm()
  {
    hide *;
    NormOfProduct(s, w.Times(w));
    NormOfProduct(w, w);
  }

  lemma PowerSumsWithGain(x: seq<Complex>, w: Complex, r: real)
    requires r == w.Norm()
    ensures PowerSumsScaled(r, Energy(x), Sum(PowerSquares(x)), ComplexSum(Squares(x)).Norm(),
                            Energy(WithGain(x, w)), Sum(PowerSquares(WithGain(x, w))),
                            ComplexSum(Squares(WithGain(x, w))).Norm())
  {
    hide Complex.Norm, Complex.Times, Energy, Sum, PowerSquares, ComplexSum, Squares, WithGain;
    EnergyWithGain(x, w, r);
    FourthPowerWithGain(x, w, r);
    SquareWithGain(x, w);
    SquareNormWithGain(ComplexSum(Squares(x)), w, r);
  }

  lemma C42WithGain(cx: real, cy: real, n: real, e: real, f: real, s: real,
                    r: real, ey: real, fy: real, sy: real)
    requires C42Equation(cx, n, e, f, s) && C42Equation(cy, n, ey, fy, sy)
    requires PowerSumsScaled(r, e, f, s, ey, fy, sy)
    requires e > 0.0 && r > 0.0
    ensures cx == cy
  {
    var p := ey * ey;
    assert p == (r * r) * (e * e);
    assert cx * p == (r * r) * (cx * (e * e));
    assert cx * p == cy * p;
    PositiveProduct(r, e, ey);
    PositiveSquare(ey, p);
    EqualByFactor(cx, cy, p);
  }

  lemma GainPositive(w: Complex)
    requires w != CZERO
    ensures w.Norm() > 0.0
  {
    var p, q := w.re * w.re, w.im * w.im;
    if w.re != 0.0 {
      PositiveSquare(if w.re > 0.0 then w.re else -w.re, p);
    } else {
      PositiveSquare(if w.im > 0.0 then w.im else -w.im, q);
    }
  }

  /** c42 does not depend on the gain or the phase of the receiver. */
  lemma C42Invariant(x: seq<Complex>, w: Complex)
    requires w != CZERO && AboveGuard(x) && AboveGuard(WithGain(x, w))
    ensures CumulantsOf(WithGain(x, w)).c42 == CumulantsOf(x).c42
  {
    hide *;
    var y := WithGain(x, w);
    C42FromSums(x);
    C42FromSums(y);
    PowerSumsWithGain(x, w, w.Norm());
    PowerPositive(x);
    GainPositive(w);
    C42WithGain(CumulantsOf(x).c42, CumulantsOf(y).c42, |x| as real, Energy(x), Sum(PowerSquares(x)),
                ComplexSum(Squares(x)).Norm(), w.Norm(), Energy(y), Sum(PowerSquares(y)),
                ComplexSum(Squares(y)).Norm());
  }

  predicate Mixes(y: real, z: Complex, u: real, v: real) {
    y == z.re * u + z.im * v
  }

  lemma PartsOfProduct(z: Complex, g: Complex)
    ensures Mixes(z.Times(g).re, z, g.re, -g.im) && Mixes(z.Times(g).im, z, g.im, g.re)
  {
  }

  /** One part of c40 after a gain, in terms of the two parts c, d before it. */
  predicate Combined(cy: real, r: real, c: real, d: real, u: real, v: real) {
    cy * (r * r) == c * u + d * v
  }

  lemma C40Combines(c: real, d: real, cy: real, n: real, e: real, f: Complex, t: Complex,
                    u: real, v: real, r: real, ey: real, fy: real, ty: real)
    requires C40Part(c, n, e, f.re, t.re) && C40Part(d, n, e, f.im, t.im) && C40Part(cy, n, ey, fy, ty)
    requires ey == r * e && Mixes(fy, f, u, v) && Mixes(ty, t, u, v)
    requires e > 0.0
    ensures Combined(cy, r, c, d, u, v)
  {
    var p := e * e;
    PositiveSquare(e, p);
    CombineScaled(c, d, cy, n, p, f.re, f.im, t.re, t.im, u, v, r, ey * ey, fy, ty);
  }

  lemma CombineScaled(c: real, d: real, cy: real, n: real, p: real, f: real, h: real, t: real, k: real,
                      u: real, v: real, r: real, q: real, fy: real, ty: real)
    requires p > 0.0 && q == (r * r) * p
    requires c * p == n * f - 3.0 * t && d * p == n * h - 3.0 * k && cy * q == n * fy - 3.0 * ty
    requires fy == f * u + h * v && ty == t * u + k * v
    ensures Combined(cy, r, c, d, u, v)
  {
    assert n * fy - 3.0 * ty == (c * p) * u + (d * p) * v by {
      assert (c * p) * u == (n * f) * u - 3.0 * (t * u);
      assert (d * p) * v == (n * h) * v - 3.0 * (k * v);
    }
    assert (cy * (r * r)) * p == cy * q;
    assert (c * u + d * v) * p == (c * p) * u + (d * p) * v;
    EqualByFactor(cy * (r * r), c * u + d * v, p);
  }

  lemma SquaredSquareWithGain(x: seq<Complex>, w: Complex, g: Complex)
    requires g == w.Times(w).Times(w.Times(w))
    ensures ComplexSum(Squares(WithGain(x, w))).Times(ComplexSum(Squares(WithGain(x, w))))
         == ComplexSum(Squares(x)).Times(ComplexSum(Squares(x))).Times(g)
  {
    hide *;
    SquareWithGain(x, w);
    SquareOfProduct(ComplexSum(Squares(x)), w.Times(w));
  }

  lemma C40Parts(c: Complex, n: real, e: real, f: Complex, s: Complex)
    requires C40Equation(c, n, e, f, s)
    ensures C40Part(c.re, n, e, f.re, s.Times(s).re) && C40Part(c.im, n, e, f.im, s.Times(s).im)
  {
    hide C40Part, Complex.Times;
  }

  /**
   A gain w multiplies c40 by w^4 / |w|^4: its magnitude stays and its angle turns four times as
   far. The two parts of  c40' * |w|^4 == c40 * w^4  are stated separately.
   */
  lemma C40Rotates(x: seq<Complex>, w: Complex, g: Complex, r: real)
    requires w != CZERO && AboveGuard(x) && AboveGuard(WithGain(x, w))
    requires g == w.Times(w).Times(w.Times(w)) && r == w.Norm()
    ensures var before, after := CumulantsOf(x).c40, CumulantsOf(WithGain(x, w)).c40;
            && Combined(after.re, r, before.re, before.im, g.re, -g.im)
            && Combined(after.im, r, before.re, before.im, g.im, g.re)
  {
    hide *;
    var y := WithGain(x, w);
    var c, cy, f, s := CumulantsOf(x).c40, CumulantsOf(y).c40, ComplexSum(Fourths(x)), ComplexSum(Squares(x));
    C40FromSums(x);
    C40FromSums(y);
    PowerPositive(x);
    EnergyWithGain(x, w, r);
    FourthsWithGain(x, w, g);
    SquaredSquareWithGain(x, w, g);
    var t, fy, ty := s.Times(s), f.Times(g), s.Times(s).Times(g);
    PartsOfProduct(f, g);
    PartsOfProduct(t, g);
    C40Parts(c, |x| as real, Energy(x), f, s);
    C40Parts(cy, |x| as real, Energy(y), fy, ComplexSum(Squares(y)));
    C40Combines(c.re, c.im, cy.re, |x| as real, Energy(x), f, t, g.re, -g.im, r, Energy(y), fy.re, ty.re);
    C40Combines(c.re, c.im, cy.im, |x| as real, Energy(x), f, t, g.im, g.re, r, Energy(y), fy.im, ty.im);
  }

  // ----- ideal constellations

  predicate ConstantModulus(x: seq<Complex>, rho: real) {
    rho > 0.0 && forall i :: 0 <= i < |x| ==> x[i].Norm() == rho
  }

  lemma ConstantModulusSums(x: seq<Complex>, rho: real)
    requires ConstantModulus(x, rho)
    ensures Energy(x) == (|x| as real) * rho
    ensures Sum(PowerSquares(x)) == (|x| as real) * (rho * rho)
  {
    hide Complex.Norm;
    SumConstant(Norms(x), rho);
    SumConstant(PowerSquares(x), rho * rho);
  }

  lemma C42OfConstantModulus(c: real, n: real, e: real, f: real, s: real, rho: real)
    requires C42Equation(c, n, e, f, s) && e == n * rho && f == n * (rho * rho)
    requires e > 0.0 && s >= 0.0
    ensures (c + 1.0) * (e * e) == -s
    ensures c <= -1.0
  {
    var w := e * e;
    PositiveSquare(e, w);
    assert n * f == w;
    assert (c + 1.0) * w == -s;
    OrderedByFactor(c, -1.0, w);
  }

  /** For a constant-modulus block c42 = -1 - |M20|^2/M21^2, so it lies in [-2, -1]. */
  lemma ConstantModulusC42(x: seq<Complex>, rho: real)
    requires ConstantModulus(x, rho) && AboveGuard(x)
    ensures (CumulantsOf(x).c42 + 1.0) * (Energy(x) * Energy(x)) == -ComplexSum(Squares(x)).Norm()
    ensures -2.0 <= CumulantsOf(x).c42 <= -1.0
  {
    hide *;
    C42Bounds(x);
    C42FromSums(x);
    ConstantModulusSums(x, rho);
    NormNonNegative(ComplexSum(Squares(x)));
    PowerPositive(x);
    C42OfConstantModulus(CumulantsOf(x).c42, |x| as real, Energy(x), Sum(PowerSquares(x)),
                         ComplexSum(Squares(x)).Norm(), rho);
  }

  // The real and imaginary parts of a sequence.

  function RealParts(z: seq<Complex>): (r: seq<real>)
    ensures |r| == |z| && forall i :: 0 <= i < |r| ==> r[i] == z[i].re
  {
    seq(|z|, i requires 0 <= i < |z| => z[i].re)
  }

  function ImaginaryParts(z: seq<Complex>): (r: seq<real>)
    ensures |r| == |z| && forall i :: 0 <= i < |r| ==> r[i] == z[i].im
  {
    seq(|z|, i requires 0 <= i < |z| => z[i].im)
  }

  lemma SumOfParts(z: seq<Complex>)
    ensures ComplexSum(z) == Complex(Sum(RealParts(z)), Sum(ImaginaryParts(z)))
  {
    ComplexSumParts(z, RealParts(z), ImaginaryParts(z));
  }

  lemma FourthParts(s: Complex)
    ensures s.Times(s).Times(s).Times(s).re
         == 1.0 * (s.Times(s).re * s.Times(s).re) + (-1.0) * (s.Times(s).im * s.Times(s).im)
    ensures s.Norm() * s.Norm()
         == 1.0 * (s.Times(s).re * s.Times(s).re) + 1.0 * (s.Times(s).im * s.Times(s).im)
  {
    FourthIsSquareOfSquare(s);
    NormOfProduct(s, s);
    var z := s.Times(s);
    assert z.Times(z).re == z.re * z.re - z.im * z.im;
    assert z.Norm() == z.re * z.re + z.im * z.im;
  }

  lemma FourthCombinations(x: seq<Complex>, a: seq<real>, b: seq<real>)
    requires a == RealParts(Squares(x)) && b == ImaginaryParts(Squares(x))
    ensures Combination(RealParts(Fourths(x)), Times(a, a), Times(b, b), 1.0, -1.0)
    ensures Combination(PowerSquares(x), Times(a, a), Times(b, b), 1.0, 1.0)
  {
    hide Complex.Norm, Complex.Times;
    forall i | 0 <= i < |x|
      ensures RealParts(Fourths(x))[i] == 1.0 * Times(a, a)[i] + (-1.0) * Times(b, b)[i]
      ensures PowerSquares(x)[i] == 1.0 * Times(a, a)[i] + 1.0 * Times(b, b)[i]
    {
      FourthParts(x[i]);
    }
  }

  /** The fourth-power sums of a block in terms of the parts a, b of its squared samples. */
  lemma FourthSums(x: seq<Complex>, a: seq<real>, b: seq<real>)
    requires a == RealParts(Squares(x)) && b == ImaginaryParts(Squares(x))
    ensures |a| == |b| == |x|
    ensures ComplexSum(Squares(x)) == Complex(Sum(a), Sum(b))
    ensures ComplexSum(Fourths(x)).re == Sum(Times(a, a)) - Sum(Times(b, b))
    ensures Sum(PowerSquares(x)) == Sum(Times(a, a)) + Sum(Times(b, b))
  {
    hide *;
    FourthCombinations(x, a, b);
    SumOfParts(Squares(x));
    SumOfParts(Fourths(x));
    SumLinear(RealParts(Fourths(x)), Times(a, a), Times(b, b), 1.0, -1.0);
    SumLinear(PowerSquares(x), Times(a, a), Times(b, b), 1.0, 1.0);
  }

  lemma SquareOfComplex(p: real, q: real)
    ensures Complex(p, q).Times(Complex(p, q)).re == p * p - q * q
    ensures Complex(p, q).Norm() == p * p + q * q
  {
  }

  /**
   For constant modulus the real part of c40 is confined by c42. Writing p, q for the parts of the
   squared samples, c40_real - c42 is 2*(N*sum p^2 - (sum p)^2) + 4*(sum q)^2 over a positive
   number, and -c42 - c40_real is the same with p and q exchanged.
   */
  lemma C40WithinC42(x: seq<Complex>, rho: real)
    requires ConstantModulus(x, rho) && AboveGuard(x)
    ensures CumulantsOf(x).c42 <= CumulantsOf(x).c40.re <= -CumulantsOf(x).c42
  {
    hide *;
    var a, b, s, c := RealParts(Squares(x)), ImaginaryParts(Squares(x)), ComplexSum(Squares(x)), CumulantsOf(x);
    C40FromSums(x);
    C42FromSums(x);
    PowerPositive(x);
    FourthSums(x, a, b);
    SquareOfComplex(Sum(a), Sum(b));
    ConstantModulusSums(x, rho);
    SquareBelowSquares(a);
    SquareBelowSquares(b);
    C40Parts(c.c40, |x| as real, Energy(x), ComplexSum(Fourths(x)), s);
    Confined(c.c40.re, c.c42, |x| as real, Energy(x), Sum(PowerSquares(x)), ComplexSum(Fourths(x)).re,
             Sum(a), Sum(b), s.Times(s).re, s.Norm(), Sum(Times(a, a)), Sum(Times(b, b)), rho);
  }

  lemma Confined(c40: real, c42: real, n: real, e: real, f: real, f4: real,
                 p: real, q: real, d: real, m: real, pp: real, qq: real, rho: real)
    requires C40Part(c40, n, e, f4, d) && C42Equation(c42, n, e, f, m)
    requires d == p * p - q * q && m == p * p + q * q
    requires e > 0.0 && e == n * rho && f == n * (rho * rho)
    requires f4 == pp - qq && f == pp + qq && p * p <= n * pp && q * q <= n * qq
    ensures c42 <= c40 <= -c42
  {
    var w := e * e;
    PositiveSquare(e, w);
    assert n * f == w;
    ConfinedScaled(c40, c42, w, n * pp, n * qq, p, q, p * p, q * q);
  }

  lemma ConfinedScaled(c40: real, c42: real, w: real, a: real, b: real, p: real, q: real, pp: real, qq: real)
    requires w > 0.0 && w == a + b && pp == p * p && qq == q * q && pp <= a && qq <= b
    requires c40 * w == a - b - 3.0 * (pp - qq)
    requires c42 * w == w - (pp + qq) - 2.0 * w
    ensures c42 <= c40 <= -c42
  {
    assert pp >= 0.0 && qq >= 0.0;
    OrderedByFactor(c42, c40, w);
    assert (-c42) * w == -(c42 * w);
    OrderedByFactor(c40, -c42, w);
  }

  /**
   A constant-modulus block whose squares cancel, as the four points of QPSK do when used equally
   often, has c42 = -1 exactly and c40_real within [-1, 1].
   */
  lemma BalancedCumulants(x: seq<Complex>, rho: real)
    requires ConstantModulus(x, rho) && AboveGuard(x) && ComplexSum(Squares(x)) == CZERO
    ensures CumulantsOf(x).c42 == -1.0 && -1.0 <= CumulantsOf(x).c40.re <= 1.0
  {
    hide RealSums.Sum, ComplexSum, CumulantsOf, AboveGuard, ConstantModulus;
    ConstantModulusC42(x, rho);
    C40WithinC42(x, rho);
    PowerPositive(x);
    ZeroFactor(CumulantsOf(x).c42, Energy(x));
  }

  lemma ZeroFactor(c: real, e: real)
    requires e > 0.0 && (c + 1.0) * (e * e) == 0.0
    ensures c == -1.0
  {
    PositiveSquare(e, e * e);
    EqualByFactor(c + 1.0, 0.0, e * e);
  }

  /** The four points of QPSK, once each. */
  ghost predicate QpskPoints(x: seq<Complex>) {
    x == [Complex(1.0, 0.0), Complex(0.0, 1.0), Complex(-1.0, 0.0), Complex(0.0, -1.0)]
  }

  lemma QpskSquares(x: seq<Complex>)
    requires QpskPoints(x)
    ensures ComplexSum(Squares(x)) == CZERO
  {
    var s := Squares(x);
    hide RealSums.Sum, ComplexSum;
    var pair := [1.0, -1.0];
    assert RealParts(s) == pair + pair;
    PairSum(1.0, -1.0);
    SumAppend(pair, pair);
    SumConstant(ImaginaryParts(s), 0.0);
    SumOfParts(s);
  }

  lemma QpskModulus(x: seq<Complex>)
    requires QpskPoints(x)
    ensures ConstantModulus(x, 1.0)
  {
    forall i | 0 <= i < |x|
      ensures x[i].Norm() == 1.0
    {
      assert x[i].re * x[i].re + x[i].im * x[i].im == 1.0;
    }
  }

  lemma UnitModulusAboveGuard(x: seq<Complex>)
    requires ConstantModulus(x, 1.0) && x != []
    ensures AboveGuard(x)
  {
    hide RealSums.Sum, ComplexSum, Complex.Norm, Normalisable;
    ConstantModulusSums(x, 1.0);
    SelfQuotient(Energy(x), |x| as real);
    UnitPowerAboveGuard(MomentsOf(x));
  }

  lemma UnitPowerAboveGuard(m: Moments)
    requires m.m21 == 1.0
    ensures Normalisable(m)
  {
    assert m.m21 * m.m21 == 1.0;
    assert POWER_GUARD <= 1.0;
  }

  /** Such blocks exist: constant modulus, squares that cancel, power above the guard. */
  lemma QpskBlock(x: seq<Complex>)
    requires QpskPoints(x)
    ensures ConstantModulus(x, 1.0) && ComplexSum(Squares(x)) == CZERO && AboveGuard(x)
  {
    hide ConstantModulus, AboveGuard, ComplexSum, Squares;
    QpskSquares(x);
    QpskModulus(x);
    UnitModulusAboveGuard(x);
  }

  /** Every sample is +a or -a on the real axis. */
  predicate Antipodal(x: seq<Complex>, a: real) {
    forall i :: 0 <= i < |x| ==> x[i] == Complex(a, 0.0) || x[i] == Complex(-a, 0.0)
  }

  lemma AntipodalTerms(s: Complex, a: real, p: real)
    requires p == a * a && (s == Complex(a, 0.0) || s == Complex(-a, 0.0))
    ensures s.Norm() == p && s.Times(s) == Complex(p, 0.0)
    ensures s.Times(s).Times(s).Times(s) == Complex(p * p, 0.0)
    ensures s.Times(s).Times(s).Times(s.Conj()) == Complex(p * p, 0.0)
  {
    FourthIsSquareOfSquare(s);
    assert s.Conj() == s;
    assert s.Times(s) == Complex(p, 0.0);
    assert Complex(p, 0.0).Times(Complex(p, 0.0)) == Complex(p * p, 0.0);
  }

  lemma {:induction false} ConstantComplexSum(s: seq<Complex>, v: real)
    requires forall i :: 0 <= i < |s| ==> s[i] == Complex(v, 0.0)
    ensures ComplexSum(s) == Complex((|s| as real) * v, 0.0)
  {
    SumOfParts(s);
    SumConstant(RealParts(s), v);
    SumConstant(ImaginaryParts(s), 0.0);
  }

  lemma AntipodalSequences(x: seq<Complex>, a: real, p: real, q: real)
    requires Antipodal(x, a) && p == a * a && q == p * p
    ensures forall i :: 0 <= i < |x| ==> Norms(x)[i] == p
    ensures forall i :: 0 <= i < |x| ==> Squares(x)[i] == Complex(p, 0.0)
    ensures forall i :: 0 <= i < |x| ==> Fourths(x)[i] == Complex(q, 0.0)
    ensures forall i :: 0 <= i < |x| ==> Mixed(x)[i] == Complex(q, 0.0)
    ensures forall i :: 0 <= i < |x| ==> PowerSquares(x)[i] == q
  {
    hide Complex.Norm, Complex.Times;
    forall i | 0 <= i < |x|
      ensures Norms(x)[i] == p && Squares(x)[i] == Complex(p, 0.0) && Fourths(x)[i] == Complex(q, 0.0)
      ensures Mixed(x)[i] == Complex(q, 0.0) && PowerSquares(x)[i] == q
    {
      AntipodalTerms(x[i], a, p);
    }
  }

  lemma AntipodalSums(x: seq<Complex>, a: real, p: real, q: real)
    requires Antipodal(x, a) && p == a * a && q == p * p
    ensures Energy(x) == (|x| as real) * p
    ensures ComplexSum(Squares(x)) == Complex((|x| as real) * p, 0.0)
    ensures ComplexSum(Fourths(x)) == Complex((|x| as real) * q, 0.0)
    ensures ComplexSum(Mixed(x)) == Complex((|x| as real) * q, 0.0)
    ensures Sum(PowerSquares(x)) == (|x| as real) * q
  {
    hide Antipodal, Complex.Norm, Complex.Times, Sum, ComplexSum, Norms, Squares, Fourths, Mixed, PowerSquares;
    AntipodalSequences(x, a, p, q);
    SumConstant(Norms(x), p);
    SumConstant(PowerSquares(x), q);
    ConstantComplexSum(Squares(x), p);
    ConstantComplexSum(Fourths(x), q);
    ConstantComplexSum(Mixed(x), q);
  }

  /** An ideal BPSK block has c40 = c41 = c42 = -2 exactly. */
  lemma BpskCumulants(x: seq<Complex>, a: real)
    requires Antipodal(x, a) && AboveGuard(x)
    ensures CumulantsOf(x) == CumulantSet(Complex(-2.0, 0.0), -2.0, -2.0)
  {
    hide *;
    var n, e, s, c := |x| as real, Energy(x), ComplexSum(Squares(x)), CumulantsOf(x);
    AntipodalSums(x, a, a * a, (a * a) * (a * a));
    C40FromSums(x);
    C41FromSums(x);
    C42FromSums(x);
    PowerPositive(x);
    C40Parts(c.c40, n, e, ComplexSum(Fourths(x)), s);
    RealSquare(e);
    BpskEquations(c.c40.re, c.c40.im, c.c41r, c.c42, n, e, a * a, s.Times(s).re, s.Times(s).im, s.Norm(),
                  Sum(PowerSquares(x)));
  }

  lemma RealSquare(e: real)
    ensures Complex(e, 0.0).Times(Complex(e, 0.0)).re == e * e
    ensures Complex(e, 0.0).Times(Complex(e, 0.0)).im == 0.0
    ensures Complex(e, 0.0).Norm() == e * e
  {
  }

  lemma BpskEquations(r: real, i: real, c41: real, c42: real, n: real, e: real, p: real,
                      d: real, z: real, m: real, f: real)
    requires e > 0.0 && e == n * p && d == e * e && z == 0.0 && m == e * e && f == n * (p * p)
    requires C40Part(r, n, e, f, d) && C40Part(i, n, e, 0.0, z)
    requires C41Equation(c41, n, e, f, e) && C42Equation(c42, n, e, f, m)
    ensures r == -2.0 && i == 0.0 && c41 == -2.0 && c42 == -2.0
  {
    var w := e * e;
    PositiveSquare(e, w);
    assert n * f == w;
    EqualByFactor(r, -2.0, w);
    EqualByFactor(i, 0.0, w);
    EqualByFactor(c41, -2.0, w);
    EqualByFactor(c42, -2.0, w);
  }
}
