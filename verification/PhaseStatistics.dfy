/** Phase and instantaneous-frequency statistics of a block (extract), over exact reals. */
module PhaseStatistics {
  import opened RealSums
  import opened ComplexNumbers
  import opened RealFunctions
  import opened Angles
  import ChirpRegression
  import Cumulants
  import Envelope

  function Phases(x: seq<Complex>, c: Circle): (p: seq<real>)
    ensures |p| == |x| && forall i :: 0 <= i < |p| ==> p[i] == c.phase(i, x[i])
  {
    seq(|x|, i requires 0 <= i < |x| => c.phase(i, x[i]))
  }

  function Deviation(s: seq<real>, sqrt: real -> real): real
    requires s != []
  {
    sqrt(VarianceOf(s))
  }

  /** The frequency steps of the whole block, in hertz. */
  function Steps(x: seq<Complex>, sr: real, c: Circle): (y: seq<real>)
    requires x != [] && c.pi > 0.0
    ensures |y| == |x| - 1
  {
    ChirpRegression.InstantaneousFrequency(x, |x| - 1, sr, c.turn, c.pi)
  }

  function FrequencyMean(x: seq<Complex>, sr: real, c: Circle): real
    requires x != [] && c.pi > 0.0
  {
    if |x| < 3 then 0.0 else Mean(Steps(x, sr, c))
  }

  function FrequencyStd(x: seq<Complex>, sr: real, c: Circle, sqrt: real -> real): real
    requires x != [] && c.pi > 0.0
  {
    if |x| < 3 then 0.0 else Deviation(Steps(x, sr, c), sqrt)
  }

  function PhaseStd(x: seq<Complex>, c: Circle, sqrt: real -> real): real
    requires x != []
  {
    Deviation(Phases(x, c), sqrt)
  }

  // ----- the measurement

  method MeanOf(a: array<real>) returns (mean: real)
    requires a.Length > 0
    ensures mean == Mean(a[..])
  {
    hide Sum;
    var sum := 0.0;
    ghost var s := a[..];
    SumEmpty();
    for i := 0 to a.Length
      invariant sum == Sum(s[..i])
    {
      SumStep(s, i);
      sum := sum + a[i];
    }
    SumAll(s);
    mean := sum / a.Length as real;
  }

  method SpreadOf(a: array<real>, mean: real, sqrt: real -> real) returns (std: real)
    requires a.Length > 0 && mean == Mean(a[..])
    ensures std == Deviation(a[..], sqrt)
  {
    hide Dot, Mean;
    ghost var d := Deviations(a[..]);
    var sum := 0.0;
    DotStart(d, d);
    for i := 0 to a.Length
      invariant sum == Dot(d[..i], d[..i])
    {
      DotStep(d, d, i, a[i] - mean, a[i] - mean);
      sum := sum + (a[i] - mean) * (a[i] - mean);
    }
    std := sqrt(sum / a.Length as real);
  }

  method MeasurePhase(x: seq<Complex>, c: Circle, sqrt: real -> real) returns (std: real)
    requires x != []
    ensures std == PhaseStd(x, c, sqrt)
  {
    hide Mean, Deviation;
    var phases := new real[|x|];
    for i := 0 to |x|
      invariant forall j :: 0 <= j < i ==> phases[j] == c.phase(j, x[j])
    {
      phases[i] := c.phase(i, x[i]);
    }
    assert phases[..] == Phases(x, c);
    var mean := MeanOf(phases);
    std := SpreadOf(phases, mean, sqrt);
  }

  lemma ConstantSpread(y: seq<real>, v: real, sqrt: real -> real)
    requires y != [] && IsSquareRoot(sqrt) && forall i :: 0 <= i < |y| ==> y[i] == v
    ensures Mean(y) == v && Deviation(y, sqrt) == 0.0
  {
    hide Sum, IsSquareRoot;
    SumConstant(y, v);
    MeanOfEqual(Mean(y), v, |y| as real, Sum(y));
    var d := Deviations(y);
    SumConstant(Times(d, d), 0.0);
    NoTurn(VarianceOf(y), Dot(d, d), |y| as real);
    RootOfSquare(0.0, VarianceOf(y), sqrt);
  }

  lemma MeanOfEqual(m: real, v: real, n: real, sum: real)
    requires n > 0.0 && sum == n * v && m == sum / n
    ensures m == v
  {
  }

  /** A tone, whatever its envelope, has the frequency its samples turn at, and no deviation. */
  lemma ToneFrequency(x: seq<Complex>, w: seq<Complex>, angle: real, sr: real, c: Circle, sqrt: real -> real)
    requires |x| >= 3 && ChirpRegression.Sweep(x, w, angle, 0.0, c.turn) && c.pi > 0.0 && IsSquareRoot(sqrt)
    ensures FrequencyMean(x, sr, c) == angle * sr / (2.0 * c.pi) && FrequencyStd(x, sr, c, sqrt) == 0.0
  {
    hide ChirpRegression.Sweep, Mean, Deviation, IsSquareRoot, ChirpRegression.InstantaneousFrequency;
    ChirpRegression.SweepIsLinear(x, w, angle, 0.0, |x| - 1, sr, c.turn, c.pi);
    NoTurn(ChirpRegression.ToHertz(0.0, sr, c.pi), 0.0 * sr, 2.0 * c.pi);
    ConstantSpread(Steps(x, sr, c), angle * sr / (2.0 * c.pi), sqrt);
  }

  method MeasureFrequency(x: seq<Complex>, sr: real, c: Circle, sqrt: real -> real) returns (mean: real, std: real)
    requires x != [] && c.pi > 0.0
    ensures mean == FrequencyMean(x, sr, c) && std == FrequencyStd(x, sr, c, sqrt)
    // A tone is measured at the frequency it turns at, sign included.
    ensures forall w, angle :: |x| >= 3 && IsSquareRoot(sqrt) && ChirpRegression.Sweep(x, w, angle, 0.0, c.turn) ==>
              mean == angle * sr / (2.0 * c.pi) && std == 0.0
  {
    hide Mean, Deviation, IsSquareRoot, ChirpRegression.Sweep;
    forall w, angle | |x| >= 3 && IsSquareRoot(sqrt) && ChirpRegression.Sweep(x, w, angle, 0.0, c.turn)
      ensures FrequencyMean(x, sr, c) == angle * sr / (2.0 * c.pi) && FrequencyStd(x, sr, c, sqrt) == 0.0
    {
      ToneFrequency(x, w, angle, sr, c, sqrt);
    }
    var n := |x| - 1;
    if n < 2 {
      return 0.0, 0.0;
    }
    var fi := ChirpRegression.PhaseSteps(x, n, sr, c.turn, c.pi);
    mean := MeanOf(fi);
    std := SpreadOf(fi, mean, sqrt);
  }

  // ----- squares that cancel spread the phases

  function Parabola(rho: real, d: real): real {
    rho * 1.0 + (-2.0 * rho) * (d * d)
  }

  function Turn(u: real, v: real, re: real, im: real): real {
    u * re + v * im
  }

  /** The turned and weighted squares, whose sum vanishes when the squares' does. */
  function Turned(re: seq<real>, im: seq<real>, u: real, v: real): (e: seq<real>)
    requires |re| == |im|
    ensures |e| == |re| && forall i :: 0 <= i < |e| ==> e[i] == Turn(u, v, re[i], im[i])
  {
    seq(|re|, i requires 0 <= i < |re| => Turn(u, v, re[i], im[i]))
  }

  /** A lower bound of those terms by the squared deviations. */
  function Parabolas(d: seq<real>, rho: real): (l: seq<real>)
    ensures |l| == |d| && forall i :: 0 <= i < |l| ==> l[i] == Parabola(rho, d[i])
  {
    seq(|d|, i requires 0 <= i < |d| => Parabola(rho, d[i]))
  }

  lemma DoubledAngle(c: Circle, sqrt: real -> real, t: real, m: real)
    requires IsCircle(c, sqrt)
    ensures c.cos(t + t) == c.cos(t) * c.cos(t) - c.sin(t) * c.sin(t)
    ensures c.sin(t + t) == c.sin(t) * c.cos(t) + c.cos(t) * c.sin(t)
    ensures c.cos((t + t) - (m + m)) == c.cos(t + t) * c.cos(m + m) + c.sin(t + t) * c.sin(m + m)
    ensures AboveParabola(c, (t + t) - (m + m))
  {
    assert AngleSums(c, t, t) && AngleSums(c, t + t, m + m);
  }

  lemma SquareOfPolar(z: Complex, root: real, rho: real, p: real, q: real)
    requires z == Complex(root * p, root * q) && root * root == rho
    ensures z.Times(z).re == rho * (p * p - q * q)
    ensures z.Times(z).im == rho * (q * p + p * q)
  {
    SquareParts(z, z.re, z.im);
    PolarParts(z.re, z.im, root, rho, p, q);
  }

  lemma SquareParts(z: Complex, a: real, b: real)
    requires z == Complex(a, b)
    ensures z.Times(z).re == a * a - b * b && z.Times(z).im == a * b + b * a
  {
  }

  lemma PolarParts(a: real, b: real, root: real, rho: real, p: real, q: real)
    requires a == root * p && b == root * q && root * root == rho
    ensures a * a - b * b == rho * (p * p - q * q)
    ensures a * b + b * a == rho * (q * p + p * q)
  {
    assert a * a == rho * (p * p) && b * b == rho * (q * q) && a * b == rho * (p * q);
  }

  lemma TurnedTerm(a: real, b: real, rho: real, ct: real, st: real, u: real, v: real, turned: real)
    requires a == rho * ct && b == rho * st && turned == ct * u + st * v
    ensures Turn(u, v, a, b) == rho * turned
  {
    assert u * a == rho * (ct * u) && v * b == rho * (st * v);
  }

  lemma ParabolaTerm(rho: real, turned: real, angle: real, d: real)
    requires rho > 0.0 && angle == d + d && turned >= 1.0 - angle * angle / 2.0
    ensures Parabola(rho, d) <= rho * turned
  {
    var gap := turned - (1.0 - 2.0 * (d * d));
    assert gap >= 0.0;
    ProductOfOrdered(0.0, rho, 0.0, gap);
    assert rho * turned - Parabola(rho, d) == rho * gap;
  }

  lemma DoubledPolar(z: Complex, root: real, rho: real, ct: real, st: real, c2: real, s2: real)
    requires z == Complex(root * ct, root * st) && root * root == rho
    requires c2 == ct * ct - st * st && s2 == st * ct + ct * st
    ensures z.Times(z).re == rho * c2 && z.Times(z).im == rho * s2
  {
    SquareOfPolar(z, root, rho, ct, st);
  }

  /** One sample's term: its turned square lies above the parabola of its phase's deviation. */
  lemma OneTerm(c: Circle, sqrt: real -> real, i: nat, z: Complex, rho: real, m: real)
    requires IsCircle(c, sqrt) && IsSquareRoot(sqrt) && rho > 0.0 && z.Norm() == rho
    ensures Parabola(rho, c.phase(i, z) - m) <= Turn(c.cos(m + m), c.sin(m + m), z.Times(z).re, z.Times(z).im)
  {
    hide Parabola, Turn, Complex.Times, Complex.Norm;
    var t := c.phase(i, z);
    assert Polar(c, sqrt, i, z);
    RootSquared(rho, sqrt);
    DoubledAngle(c, sqrt, t, m);
    hide IsCircle, IsSquareRoot;
    DoubledPolar(z, sqrt(rho), rho, c.cos(t), c.sin(t), c.cos(t + t), c.sin(t + t));
    TurnedTerm(z.Times(z).re, z.Times(z).im, rho, c.cos(t + t), c.sin(t + t), c.cos(m + m), c.sin(m + m),
               c.cos((t + t) - (m + m)));
    ParabolaTerm(rho, c.cos((t + t) - (m + m)), (t + t) - (m + m), t - m);
  }

  lemma TurnedSum(x: seq<Complex>, re: seq<real>, im: seq<real>, u: real, v: real)
    requires ComplexSum(Cumulants.Squares(x)) == CZERO
    requires re == Cumulants.RealParts(Cumulants.Squares(x)) && im == Cumulants.ImaginaryParts(Cumulants.Squares(x))
    ensures |re| == |x| && |im| == |x|
    ensures Sum(Turned(re, im, u, v)) == 0.0
  {
    hide Sum, ComplexSum;
    Cumulants.SumOfParts(Cumulants.Squares(x));
    SumLinear(Turned(re, im, u, v), re, im, u, v);
    NothingCombined(Sum(Turned(re, im, u, v)), u, v, Sum(re), Sum(im));
  }

  lemma NothingCombined(total: real, u: real, v: real, a: real, b: real)
    requires total == u * a + v * b && a == 0.0 && b == 0.0
    ensures total == 0.0
  {
  }

  lemma ParabolaSum(d: seq<real>, rho: real)
    ensures Sum(Parabolas(d, rho)) == rho * (|d| as real) + (-2.0 * rho) * Dot(d, d)
  {
    hide Sum;
    var ones := seq(|d|, i => 1.0);
    SumConstant(ones, 1.0);
    SumLinear(Parabolas(d, rho), ones, Times(d, d), rho, -2.0 * rho);
  }

  lemma TermsOrdered(x: seq<Complex>, rho: real, c: Circle, sqrt: real -> real, d: seq<real>, e: seq<real>, m: real)
    requires x != [] && Cumulants.ConstantModulus(x, rho) && IsCircle(c, sqrt) && IsSquareRoot(sqrt)
    requires d == Deviations(Phases(x, c)) && m == Mean(Phases(x, c))
    requires e == Turned(Cumulants.RealParts(Cumulants.Squares(x)), Cumulants.ImaginaryParts(Cumulants.Squares(x)),
                         c.cos(m + m), c.sin(m + m))
    ensures Sum(Parabolas(d, rho)) <= Sum(e)
  {
    hide Sum, IsCircle, IsSquareRoot, Mean, Complex.Norm, Complex.Times, Parabola, Turn;
    forall i | 0 <= i < |x|
      ensures Parabolas(d, rho)[i] <= e[i]
    {
      OneTerm(c, sqrt, i, x[i], rho, m);
    }
    SumMonotone(Parabolas(d, rho), e);
  }

  lemma HalfBound(rho: real, n: real, v: real)
    requires rho > 0.0 && rho * n + (-2.0 * rho) * v <= 0.0
    ensures 0.5 * n <= v
  {
    if v < 0.5 * n {
      PositiveProduct(rho, n - 2.0 * v, rho * (n - 2.0 * v));
    }
  }

  /** Constant modulus and squares that cancel: the phases' variance is at least one half. */
  lemma CancellingSquaresSpreadPhases(x: seq<Complex>, rho: real, c: Circle, sqrt: real -> real)
    requires x != [] && Cumulants.ConstantModulus(x, rho) && ComplexSum(Cumulants.Squares(x)) == CZERO
    requires IsCircle(c, sqrt) && IsSquareRoot(sqrt)
    ensures VarianceOf(Phases(x, c)) >= 0.5
    ensures PhaseStd(x, c, sqrt) > 0.3
  {
    hide Sum, ComplexSum, Dot, Mean, VarianceOf, Deviation, IsCircle, IsSquareRoot, Cumulants.ConstantModulus;
    var p := Phases(x, c);
    SpreadAtLeastHalf(x, rho, c, sqrt, Mean(p), Deviations(p));
    VarianceTimesCount(p, Deviations(p));
    OrderedByFactor(0.5, VarianceOf(p), |x| as real);
    LargeDeviation(p, sqrt);
  }

  lemma SpreadAtLeastHalf(x: seq<Complex>, rho: real, c: Circle, sqrt: real -> real, m: real, d: seq<real>)
    requires x != [] && Cumulants.ConstantModulus(x, rho) && ComplexSum(Cumulants.Squares(x)) == CZERO
    requires IsCircle(c, sqrt) && IsSquareRoot(sqrt)
    requires d == Deviations(Phases(x, c)) && m == Mean(Phases(x, c))
    ensures 0.5 * (|x| as real) <= Sum(Times(d, d))
  {
    hide Sum, ComplexSum, IsCircle, IsSquareRoot, Mean, Turned, Parabolas;
    var re, im := Cumulants.RealParts(Cumulants.Squares(x)), Cumulants.ImaginaryParts(Cumulants.Squares(x));
    TurnedSum(x, re, im, c.cos(m + m), c.sin(m + m));
    TermsOrdered(x, rho, c, sqrt, d, Turned(re, im, c.cos(m + m), c.sin(m + m)), m);
    ParabolaSum(d, rho);
    HalfBound(rho, |x| as real, Dot(d, d));
  }

  lemma LargeDeviation(s: seq<real>, sqrt: real -> real)
    requires s != [] && IsSquareRoot(sqrt) && VarianceOf(s) >= 0.5
    ensures Deviation(s, sqrt) > 0.3
  {
    RootAbove(VarianceOf(s), 0.3, sqrt);
  }

  lemma RootAbove(v: real, t: real, sqrt: real -> real)
    requires IsSquareRoot(sqrt) && v >= 0.0 && t >= 0.0
    ensures sqrt(v) >= 0.0
    ensures sqrt(v) > t <==> v > t * t
  {
    var root := sqrt(v);
    assert root >= 0.0 && root * root == v;
    if root > t {
      SquareStrict(root, t);
    } else {
      ProductOfOrdered(root, t, root, t);
    }
  }

  // ----- sequences of the values v, -v and zero

  ghost predicate Marks(marks: seq<int>) {
    forall i :: 0 <= i < |marks| ==> -1 <= marks[i] <= 1
  }

  /** How many places are marked, whatever the sign. */
  function Count(marks: seq<int>): nat {
    if marks == [] then 0 else Count(marks[..|marks| - 1]) + if marks[|marks| - 1] != 0 then 1 else 0
  }

  /** By how many the positive marks outnumber the negative ones. */
  function Net(marks: seq<int>): int {
    if marks == [] then 0 else Net(marks[..|marks| - 1]) + marks[|marks| - 1]
  }

  function Signed(mark: int, v: real): real {
    if mark == 0 then 0.0 else if mark > 0 then v else -v
  }

  function Select(marks: seq<int>, v: real): (s: seq<real>)
    ensures |s| == |marks| && forall i :: 0 <= i < |s| ==> s[i] == Signed(marks[i], v)
  {
    seq(|marks|, i requires 0 <= i < |marks| => Signed(marks[i], v))
  }

  lemma {:induction false} NetWithinCount(marks: seq<int>)
    requires Marks(marks)
    ensures 0 <= Net(marks) + Count(marks) && Net(marks) <= Count(marks) <= |marks|
  {
    if marks == [] {
    } else {
      NetWithinCount(marks[..|marks| - 1]);
    }
  }

  predicate IsProduct(p: real, a: real, b: real) {
    p == a * b
  }

  predicate IsSquareProduct(p: real, v: real, k: real) {
    p == (v * v) * k
  }

  lemma SelectSplit(marks: seq<int>, v: real, n: nat)
    requires |marks| == n + 1
    ensures Select(marks, v)[..n] == Select(marks[..n], v) && Select(marks, v)[n] == Signed(marks[n], v)
  {
    hide Signed;
  }

  lemma {:induction false} SelectSum(marks: seq<int>, v: real)
    requires Marks(marks)
    ensures IsProduct(Sum(Select(marks, v)), v, Net(marks) as real)
  {
    var s := Select(marks, v);
    if marks == [] {
    } else {
      hide Sum, IsProduct, Signed, Select;
      var n := |marks| - 1;
      SelectSum(marks[..n], v);
      SelectSplit(marks, v, n);
      SumStep(s, n);
      SumAll(s);
      OneMoreMark(marks[n], v, Sum(s[..n]), Net(marks[..n]) as real, Sum(s), Net(marks) as real);
    }
  }

  lemma OneMoreMark(mark: int, v: real, p: real, d: real, p': real, d': real)
    requires -1 <= mark <= 1 && IsProduct(p, v, d) && p' == p + Signed(mark, v) && d' == d + mark as real
    ensures IsProduct(p', v, d')
  {
  }

  lemma {:induction false} SelectSquares(marks: seq<int>, v: real)
    ensures IsSquareProduct(Dot(Select(marks, v), Select(marks, v)), v, Count(marks) as real)
  {
    var s := Select(marks, v);
    if marks == [] {
      assert Times(s, s) == [];
    } else {
      hide Dot, IsSquareProduct, Signed, Select;
      var n := |marks| - 1;
      SelectSquares(marks[..n], v);
      SelectSplit(marks, v, n);
      DotSplit(s, s, n);
      OneMoreSquare(marks[n], v, s[n], Dot(s[..n], s[..n]), Count(marks[..n]) as real, Dot(s, s),
                    Count(marks) as real);
    }
  }

  lemma OneMoreSquare(mark: int, v: real, e: real, p: real, k: real, p': real, k': real)
    requires e == Signed(mark, v) && IsSquareProduct(p, v, k) && p' == p + e * e
    requires k' == if mark != 0 then k + 1.0 else k
    ensures IsSquareProduct(p', v, k')
  {
    Distribute(v * v, k, 1.0);
  }

  lemma DeviationSquare(t: real, m: real, d: real, dd: real)
    requires d == t - m && dd == d * d
    ensures dd == 1.0 * (t * t) + 1.0 * ((-2.0 * m) * t + (m * m) * 1.0)
  {
  }

  predicate SplitByMean(w: real, dot: real, sum: real, m: real, n: real) {
    w == dot + ((-2.0 * m) * sum + (m * m) * n)
  }

  /** The sum of squared deviations, through the sums of the values and of their squares. */
  lemma VariationForm(s: seq<real>, m: real, d: seq<real>)
    requires s != [] && m == Mean(s) && d == Deviations(s)
    ensures SplitByMean(Dot(d, d), Dot(s, s), Sum(s), m, |s| as real)
  {
    hide Sum, Mean;
    var line := Envelope.LineThrough(s, -2.0 * m, m * m);
    Envelope.LineSum(s, -2.0 * m, m * m);
    forall i | 0 <= i < |s|
      ensures Times(d, d)[i] == 1.0 * Times(s, s)[i] + 1.0 * line[i]
    {
      DeviationSquare(s[i], m, d[i], Times(d, d)[i]);
    }
    SumLinear(Times(d, d), Times(s, s), line, 1.0, 1.0);
  }

  /** q is the variance of n values, k of them v or -v and the others zero, with v ahead by d. */
  predicate SpreadIs(q: real, n: real, k: real, d: real, v: real) {
    q * (n * n) == (k * n - d * d) * (v * v)
  }

  /** The standard deviation of those values exceeds t. */
  predicate SpreadExceeds(n: real, k: real, d: real, v: real, t: real) {
    (k * n - d * d) * (v * v) > (t * t) * (n * n)
  }

  lemma MarkedVariance(q: real, w: real, dot: real, sum: real, m: real, n: real, k: real, d: real, v: real)
    requires IsProduct(w, q, n) && SplitByMean(w, dot, sum, m, n) && IsProduct(sum, m, n)
    requires IsProduct(sum, v, d) && IsSquareProduct(dot, v, k)
    ensures SpreadIs(q, n, k, d, v)
  {
    assert q * (n * n) == w * n;
    assert (m * m) * n * n == sum * sum;
    assert w * n == dot * n - sum * sum;
    assert sum * sum == (d * d) * (v * v);
    assert dot * n == (k * n) * (v * v);
  }

  lemma MeanProducts(s: seq<real>)
    requires s != []
    ensures IsProduct(Sum(s), Mean(s), |s| as real)
    ensures IsProduct(Dot(Deviations(s), Deviations(s)), VarianceOf(s), |s| as real)
  {
    hide Sum, Dot, Deviations, IsProduct;
    QuotientProduct(Mean(s), Sum(s), |s| as real);
    QuotientProduct(VarianceOf(s), Variation(s), |s| as real);
  }

  lemma QuotientProduct(q: real, a: real, n: real)
    requires n > 0.0 && q == a / n
    ensures IsProduct(a, q, n)
  {
    ClearQuotient(q, a, n);
  }

  /** The variance of values marked at k of n places, v ahead of -v by d, is (k * n - d^2) * v^2 / n^2. */
  lemma SelectVariance(marks: seq<int>, v: real)
    requires marks != [] && Marks(marks)
    ensures SpreadIs(VarianceOf(Select(marks, v)), |marks| as real, Count(marks) as real, Net(marks) as real, v)
  {
    hide *;
    var s := Select(marks, v);
    SelectSum(marks, v);
    SelectSquares(marks, v);
    VariationForm(s, Mean(s), Deviations(s));
    MeanProducts(s);
    MarkedVariance(VarianceOf(s), Dot(Deviations(s), Deviations(s)), Dot(s, s), Sum(s), Mean(s), |marks| as real,
                   Count(marks) as real, Net(marks) as real, v);
  }

  lemma StandardAbove(q: real, n: real, k: real, d: real, v: real, t: real)
    requires n > 0.0 && SpreadIs(q, n, k, d, v)
    ensures q > t * t <==> SpreadExceeds(n, k, d, v, t)
  {
    var nn, w, tt := n * n, (k * n - d * d) * (v * v), t * t;
    PositiveSquare(n, nn);
    if q > tt {
      PositiveProduct(q - tt, nn, w - tt * nn);
    } else {
      ProductOfOrdered(0.0, tt - q, 0.0, nn);
      assert (tt - q) * nn == tt * nn - w;
    }
  }

  /** So how its standard deviation compares with any t can be read off the marks. */
  lemma SelectDeviation(marks: seq<int>, v: real, t: real, sqrt: real -> real)
    requires marks != [] && Marks(marks) && IsSquareRoot(sqrt) && t >= 0.0
    ensures Deviation(Select(marks, v), sqrt) > t <==>
            SpreadExceeds(|marks| as real, Count(marks) as real, Net(marks) as real, v, t)
  {
    hide Sum, Dot, Mean, VarianceOf, Deviations, Select, IsSquareRoot, SpreadIs, SpreadExceeds, Marks;
    SelectVariance(marks, v);
    VarianceNonNegative(Select(marks, v));
    RootAbove(VarianceOf(Select(marks, v)), t, sqrt);
    StandardAbove(VarianceOf(Select(marks, v)), |marks| as real, Count(marks) as real, Net(marks) as real, v, t);
  }

  /** Whatever the signs, k * (n - k) * v^2 > (t * n)^2 is enough. */
  lemma EnoughMarks(n: real, k: real, d: real, v: real, t: real)
    requires -k <= d <= k && (k * (n - k)) * (v * v) > (t * t) * (n * n)
    ensures SpreadExceeds(n, k, d, v, t)
  {
    var vv, gap := v * v, (k - d) * (k + d);
    ProductOfOrdered(0.0, k - d, 0.0, k + d);
    assert vv >= 0.0 by {
      if v != 0.0 {
        NonZeroSquare(v, vv);
      }
    }
    ProductOfOrdered(0.0, gap, 0.0, vv);
    assert (k * n - d * d) * vv == (k * (n - k)) * vv + gap * vv;
  }

  lemma VarianceNonNegative(s: seq<real>)
    requires s != []
    ensures VarianceOf(s) >= 0.0
  {
    hide Dot;
    DotSelfNonNegative(Deviations(s));
    if Variation(s) > 0.0 {
      PositiveQuotient(Variation(s), |s| as real, VarianceOf(s));
    }
  }

  // ----- antipodal blocks

  function SignOf(angle: real, pi: real): (mark: int)
    ensures mark == 1 || mark == -1
  {
    if angle == pi then 1 else -1
  }

  function NegativeMark(x: seq<Complex>, c: Circle, i: nat): (mark: int)
    requires i < |x|
    ensures -1 <= mark <= 1
  {
    if x[i].re < 0.0 then SignOf(c.phase(i, x[i]), c.pi) else 0
  }

  /** The negative samples, marked by the sign of their phase. */
  function NegativeMarks(x: seq<Complex>, c: Circle): (m: seq<int>)
    ensures |m| == |x| && forall i :: 0 <= i < |m| ==> m[i] == NegativeMark(x, c, i)
    ensures Marks(m)
  {
    seq(|x|, i requires 0 <= i < |x| => NegativeMark(x, c, i))
  }

  /** What turns a sample into the next one. */
  function Product(x: seq<Complex>, i: nat): Complex
    requires i + 1 < |x|
  {
    x[i + 1].Times(x[i].Conj())
  }

  function FlipMark(x: seq<Complex>, c: Circle, i: nat): (mark: int)
    requires i + 1 < |x|
    ensures -1 <= mark <= 1
  {
    if x[i + 1] != x[i] then SignOf(c.turn(i, Product(x, i)), c.pi) else 0
  }

  /** Where a sample differs from the one before it, marked by the sign of the turn. */
  function FlipMarks(x: seq<Complex>, c: Circle): (m: seq<int>)
    requires x != []
    ensures |m| == |x| - 1 && forall i :: 0 <= i < |m| ==> m[i] == FlipMark(x, c, i)
    ensures Marks(m)
  {
    seq(|x| - 1, i requires 0 <= i < |x| - 1 => FlipMark(x, c, i))
  }

  lemma AntipodalPhase(z: Complex, i: nat, a: real, c: Circle, sqrt: real -> real)
    requires (z == Complex(a, 0.0) || z == Complex(-a, 0.0)) && a != 0.0 && IsCircle(c, sqrt)
    ensures c.phase(i, z) == Signed(if z.re < 0.0 then SignOf(c.phase(i, z), c.pi) else 0, c.pi)
  {
    assert OnAxis(c.phase, c.pi, i, z.re);
  }

  lemma AntipodalPhases(x: seq<Complex>, a: real, c: Circle, sqrt: real -> real)
    requires Cumulants.Antipodal(x, a) && a != 0.0 && IsCircle(c, sqrt)
    ensures Phases(x, c) == Select(NegativeMarks(x, c), c.pi)
  {
    hide IsCircle, Signed, SignOf;
    forall i | 0 <= i < |x|
      ensures c.phase(i, x[i]) == Signed(NegativeMarks(x, c)[i], c.pi)
    {
      AntipodalPhase(x[i], i, a, c, sqrt);
    }
  }

  lemma TimesOnAxis(p: real, q: real)
    ensures Complex(p, 0.0).Times(Complex(q, 0.0).Conj()) == Complex(p * q, 0.0)
  {
  }

  lemma HalfRate(pi: real, sr: real)
    requires pi > 0.0
    ensures ChirpRegression.ToHertz(pi, sr, pi) == sr / 2.0
    ensures ChirpRegression.ToHertz(-pi, sr, pi) == -(sr / 2.0)
    ensures ChirpRegression.ToHertz(0.0, sr, pi) == 0.0
  {
    HalfTurn(ChirpRegression.ToHertz(pi, sr, pi), pi * sr, pi, sr);
    HalfTurn(ChirpRegression.ToHertz(-pi, sr, pi), -pi * sr, pi, -sr);
    NoTurn(ChirpRegression.ToHertz(0.0, sr, pi), 0.0 * sr, 2.0 * pi);
  }

  lemma HalfTurn(q: real, w: real, pi: real, sr: real)
    requires pi > 0.0 && w == pi * sr && q == w / (2.0 * pi)
    ensures q == sr / 2.0
  {
    ClearQuotient(q, w, 2.0 * pi);
    EqualByFactor(q, sr / 2.0, 2.0 * pi);
  }

  lemma NoTurn(q: real, w: real, n: real)
    requires n > 0.0 && w == 0.0 && q == w / n
    ensures q == 0.0
  {
  }

  lemma AntipodalStep(i: nat, u: Complex, v: Complex, a: real, c: Circle, sqrt: real -> real)
    requires (u == Complex(a, 0.0) || u == Complex(-a, 0.0)) && (v == Complex(a, 0.0) || v == Complex(-a, 0.0))
    requires a != 0.0 && IsCircle(c, sqrt)
    ensures var turn := c.turn(i, v.Times(u.Conj()));
            turn == Signed(if v != u then SignOf(turn, c.pi) else 0, c.pi)
  {
    NonZeroSquare(a, a * a);
    StepOnAxis(u, v, a, a * a);
    assert OnAxis(c.turn, c.pi, i, a * a) && OnAxis(c.turn, c.pi, i, -(a * a));
  }

  lemma StepOnAxis(u: Complex, v: Complex, a: real, aa: real)
    requires (u == Complex(a, 0.0) || u == Complex(-a, 0.0)) && (v == Complex(a, 0.0) || v == Complex(-a, 0.0))
    requires a != 0.0 && aa == a * a
    ensures v.Times(u.Conj()) == Complex(if v != u then -aa else aa, 0.0)
  {
    SignedProduct(v.re, u.re, a, aa);
    TimesOnAxis(v.re, u.re);
  }

  lemma SignedProduct(p: real, q: real, a: real, aa: real)
    requires (p == a || p == -a) && (q == a || q == -a) && a != 0.0 && aa == a * a
    ensures p * q == if p == q then aa else -aa
  {
  }

  lemma SignedHertz(mark: int, sr: real, c: Circle)
    requires c.pi > 0.0
    ensures ChirpRegression.ToHertz(Signed(mark, c.pi), sr, c.pi) == Signed(mark, sr / 2.0)
  {
    HalfRate(c.pi, sr);
  }

  lemma AntipodalSteps(x: seq<Complex>, a: real, sr: real, c: Circle, sqrt: real -> real)
    requires x != [] && Cumulants.Antipodal(x, a) && a != 0.0 && IsCircle(c, sqrt) && c.pi > 0.0
    ensures Steps(x, sr, c) == Select(FlipMarks(x, c), sr / 2.0)
  {
    hide IsCircle, ChirpRegression.ToHertz, Complex.Times, Signed, SignOf;
    var y, m := Steps(x, sr, c), FlipMarks(x, c);
    forall i | 0 <= i < |x| - 1
      ensures y[i] == Signed(m[i], sr / 2.0)
    {
      AntipodalStep(i, x[i], x[i + 1], a, c, sqrt);
      SignedHertz(m[i], sr, c);
    }
  }

  lemma PiPositive(c: Circle, sqrt: real -> real)
    requires IsCircle(c, sqrt)
    ensures 3.0 < c.pi < 3.2
  {
  }

  /**
   k of n samples negative, d more of them with phase pi than with -pi: the phase deviation exceeds 0.3
   exactly if (k * n - d^2) * pi^2 > (0.3 * n)^2.
   */
  lemma AntipodalPhaseStd(x: seq<Complex>, a: real, c: Circle, sqrt: real -> real)
    requires x != [] && Cumulants.Antipodal(x, a) && a != 0.0 && IsCircle(c, sqrt) && IsSquareRoot(sqrt)
    ensures var m := NegativeMarks(x, c);
            PhaseStd(x, c, sqrt) > 0.3 <==>
            SpreadExceeds(|x| as real, Count(m) as real, Net(m) as real, c.pi, 0.3)
  {
    hide IsCircle, IsSquareRoot, Deviation, Select, Cumulants.Antipodal, SpreadExceeds, Marks;
    AntipodalPhases(x, a, c, sqrt);
    SelectDeviation(NegativeMarks(x, c), c.pi, 0.3, sqrt);
  }

  /**
   k of n steps flip, d more of them by pi than by -pi: the frequency deviation exceeds t exactly if
   (k * n - d^2) * (sr / 2)^2 > (t * n)^2.
   */
  lemma AntipodalFrequencyStd(x: seq<Complex>, a: real, sr: real, c: Circle, sqrt: real -> real, t: real)
    requires |x| >= 3 && Cumulants.Antipodal(x, a) && a != 0.0 && IsCircle(c, sqrt) && IsSquareRoot(sqrt) && t >= 0.0
    requires c.pi > 0.0
    ensures var m := FlipMarks(x, c);
            FrequencyStd(x, sr, c, sqrt) > t <==>
            SpreadExceeds(|m| as real, Count(m) as real, Net(m) as real, sr / 2.0, t)
  {
    hide IsCircle, IsSquareRoot, Deviation, Select, Cumulants.Antipodal, SpreadExceeds, Marks;
    AntipodalSteps(x, a, sr, c, sqrt);
    SelectDeviation(FlipMarks(x, c), sr / 2.0, t, sqrt);
  }

  /**
   Every imaginary part is a positive zero. Then the product of a falling flip (from a positive to a
   negative sample) has imaginary part +0 and turns by pi, that of a rising one -0 and turns by -pi.
   */
  ghost predicate PositiveZeros(x: seq<Complex>, c: Circle) {
    forall i: nat :: i + 1 < |x| && x[i + 1] != x[i] ==> (c.turn(i, Product(x, i)) == c.pi <==> x[i].re > 0.0)
  }

  function Level(z: Complex): int {
    if z.re > 0.0 then 1 else 0
  }

  /** Falling and rising flips alternate, so what is ahead is how far the block has fallen. */
  lemma {:induction false} FlipsAlternate(x: seq<Complex>, a: real, c: Circle, j: nat)
    requires Cumulants.Antipodal(x, a) && a != 0.0 && PositiveZeros(x, c) && j < |x|
    ensures Net(FlipMarks(x, c)[..j]) == Level(x[0]) - Level(x[j])
    ensures Count(FlipMarks(x, c)[..j]) % 2 == if Level(x[0]) == Level(x[j]) then 0 else 1
  {
    hide Product;
    var m := FlipMarks(x, c);
    if j == 0 {
      assert m[..0] == [];
    } else {
      FlipsAlternate(x, a, c, j - 1);
      assert m[..j][..j - 1] == m[..j - 1];
      assert x[j] != x[j - 1] ==> (c.turn(j - 1, Product(x, j - 1)) == c.pi <==> x[j - 1].re > 0.0);
      assert m[j - 1] == Level(x[j - 1]) - Level(x[j]);
    }
  }

  /** With positive zeros the deviation is exact in the number of flips: (k * n - k % 2) * (sr / 2)^2 / n^2. */
  lemma AlternatingFrequencyStd(x: seq<Complex>, a: real, sr: real, c: Circle, sqrt: real -> real, t: real)
    requires |x| >= 3 && Cumulants.Antipodal(x, a) && a != 0.0 && IsCircle(c, sqrt) && IsSquareRoot(sqrt) && t >= 0.0
    requires c.pi > 0.0 && PositiveZeros(x, c)
    ensures var k := Count(FlipMarks(x, c));
            FrequencyStd(x, sr, c, sqrt) > t <==>
            SpreadExceeds((|x| - 1) as real, k as real, (k % 2) as real, sr / 2.0, t)
  {
    hide IsCircle, IsSquareRoot, FrequencyStd, Cumulants.Antipodal, SpreadExceeds, PositiveZeros, Marks;
    var m := FlipMarks(x, c);
    AntipodalFrequencyStd(x, a, sr, c, sqrt, t);
    FlipsAlternate(x, a, c, |m|);
    assert m[..|m|] == m;
    SameSquare(|m| as real, Count(m) as real, Net(m) as real, (Count(m) % 2) as real, sr / 2.0, t);
  }

  lemma SameSquare(n: real, k: real, d: real, e: real, v: real, t: real)
    requires d == e || d == -e
    ensures SpreadExceeds(n, k, d, v, t) <==> SpreadExceeds(n, k, e, v, t)
  {
    assert d * d == e * e;
  }

  /** Half the samples negative is far more than enough, whatever their signs. */
  lemma BalancedAntipodalSpread(x: seq<Complex>, a: real, c: Circle, sqrt: real -> real)
    requires x != [] && Cumulants.Antipodal(x, a) && a != 0.0 && IsCircle(c, sqrt) && IsSquareRoot(sqrt)
    requires 2 * Count(NegativeMarks(x, c)) == |x|
    ensures PhaseStd(x, c, sqrt) > 0.3
  {
    hide IsCircle, IsSquareRoot, PhaseStd, Cumulants.Antipodal, SpreadExceeds, Marks;
    var m := NegativeMarks(x, c);
    AntipodalPhaseStd(x, a, c, sqrt);
    PiPositive(c, sqrt);
    NetWithinCount(m);
    HalfAndHalf(|x| as real, Count(m) as real, c.pi);
    EnoughMarks(|x| as real, Count(m) as real, Net(m) as real, c.pi, 0.3);
  }

  lemma HalfAndHalf(n: real, k: real, pi: real)
    requires n > 0.0 && 2.0 * k == n && pi > 3.0
    ensures (k * (n - k)) * (pi * pi) > (0.3 * 0.3) * (n * n)
  {
    var nn, pp := n * n, pi * pi;
    PositiveSquare(n, nn);
    ProductOfOrdered(3.0, pi, 3.0, pi);
    assert k * (n - k) == nn / 4.0;
    ProductOfOrdered(nn / 4.0, nn / 4.0, 9.0, pp);
  }
}
