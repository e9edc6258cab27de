/** The least-squares chirp detector (detectChirp), over exact reals. */
module ChirpRegression {
  import opened RealSums
  import opened ComplexNumbers

  /** Total variation below this leaves R^2 at zero; a denominator below it aborts (1e-12). */
  const TINY: real := 1.0 / 1000000000000.0

  datatype Line = Line(slope: real, intercept: real) {
    function At(i: nat): real {
      slope * (i as real) + intercept
    }
  }

  /** The sample indices 0, 1, .., n-1 the regression runs over. */
  function Ramp(n: nat): (r: seq<real>)
    ensures |r| == n && forall i :: 0 <= i < n ==> r[i] == i as real
  {
    seq(n, i => i as real)
  }

  function Errors(y: seq<real>, line: Line): (e: seq<real>)
    ensures |e| == |y| && forall i :: 0 <= i < |e| ==> e[i] == y[i] - line.At(i)
  {
    seq(|y|, i requires 0 <= i < |y| => y[i] - line.At(i))
  }

  function SquaredError(y: seq<real>, line: Line): real {
    Dot(Errors(y, line), Errors(y, line))
  }

  function Denominator(n: nat): real {
    (n as real) * Dot(Ramp(n), Ramp(n)) - Sum(Ramp(n)) * Sum(Ramp(n))
  }

  // ----- sums over the index ramp

  lemma RampUnfolds(m: nat)
    ensures Sum(Ramp(m + 1)) == Sum(Ramp(m)) + m as real
    ensures Dot(Ramp(m + 1), Ramp(m + 1)) == Dot(Ramp(m), Ramp(m)) + (m as real) * (m as real)
  {
    assert Ramp(m + 1)[..m] == Ramp(m);
    TimesPrefix(Ramp(m + 1), Ramp(m + 1), m);
  }

  /** The closed forms of sum i and sum i^2 below n. */
  predicate ClosedForms(n: real, s: real, q: real) {
    && 2.0 * s == n * (n - 1.0)
    && 6.0 * q == n * (n - 1.0) * (2.0 * n - 1.0)
  }

  lemma RampStart()
    ensures ClosedForms(0.0, Sum(Ramp(0)), Dot(Ramp(0), Ramp(0)))
  {
    assert Ramp(0) == [] && Times(Ramp(0), Ramp(0)) == [];
  }

  lemma {:induction false} RampSums(n: nat)
    ensures ClosedForms(n as real, Sum(Ramp(n)), Dot(Ramp(n), Ramp(n)))
  {
    hide *;
    if n == 0 {
      RampStart();
    } else {
      var m := n - 1;
      RampSums(m);
      RampUnfolds(m);
      RampStep(m as real, n as real, Sum(Ramp(m)), Sum(Ramp(n)), Dot(Ramp(m), Ramp(m)), Dot(Ramp(n), Ramp(n)));
    }
  }

  lemma RampStep(m: real, n: real, s: real, s': real, q: real, q': real)
    requires n == m + 1.0 && s' == s + m && q' == q + m * m && ClosedForms(m, s, q)
    ensures ClosedForms(n, s', q')
  {
  }

  /** The guard against a vanishing denominator is dead: from two samples on it is positive. */
  lemma DenominatorPositive(n: nat)
    requires n >= 2
    ensures Denominator(n) >= 1.0
    ensures 12.0 * Denominator(n) == (n as real) * (n as real) * ((n as real) * (n as real) - 1.0)
  {
    hide RealSums.Dot, RealSums.Sum, Ramp, ClosedForms;
    RampSums(n);
    ClosedDenominator(n as real, Sum(Ramp(n)), Dot(Ramp(n), Ramp(n)), Denominator(n));
  }

  lemma ClosedDenominator(n: real, s: real, q: real, d: real)
    requires n >= 2.0 && d == n * q - s * s
    requires ClosedForms(n, s, q)
    ensures d >= 1.0
    ensures 12.0 * d == n * n * (n * n - 1.0)
  {
    var p := n * n;
    ProductOfOrdered(2.0, n, 2.0, n);
    assert 12.0 * (s * s) == 3.0 * ((n * (n - 1.0)) * (n * (n - 1.0)));
    assert 12.0 * (n * q) == 2.0 * (n * (n * (n - 1.0) * (2.0 * n - 1.0)));
    assert 12.0 * d == p * (p - 1.0);
    ProductOfOrdered(4.0, p, 3.0, p - 1.0);
  }

  // ----- the squared error as a quadratic form in slope and intercept

  predicate ErrorForm(q: real, yy: real, xy: real, y: real, xx: real, x: real, n: real, a: real, b: real) {
    q == yy - 2.0 * (a * xy) - 2.0 * (b * y) + (a * a) * xx + 2.0 * ((a * b) * x) + (b * b) * n
  }

  /** The seven sums before and after adding index i with value v and error e. */
  predicate SumsStep(q: real, yy: real, xy: real, y: real, xx: real, x: real, n: real, i: real, v: real, e: real,
                     q': real, yy': real, xy': real, y': real, xx': real, x': real, n': real) {
    && q' == q + e * e && yy' == yy + v * v && xy' == xy + i * v && y' == y + v
    && xx' == xx + i * i && x' == x + i && n' == n + 1.0
  }

  lemma SquaredErrorUnfolds(y: seq<real>, line: Line, m: nat, e: real)
    requires |y| == m + 1 && e == y[m] - line.At(m)
    ensures SquaredError(y, line) == SquaredError(y[..m], line) + e * e
  {
    hide Line.At, RealSums.Dot;
    assert Errors(y, line)[..m] == Errors(y[..m], line);
    DotSplit(Errors(y, line), Errors(y, line), m);
  }

  lemma RampDotUnfolds(y: seq<real>, m: nat)
    requires |y| == m + 1
    ensures Dot(Ramp(m + 1), y) == Dot(Ramp(m), y[..m]) + (m as real) * y[m]
  {
    hide RealSums.Dot;
    assert Ramp(m + 1)[..m] == Ramp(m);
    DotSplit(Ramp(m + 1), y, m);
  }

  lemma ErrorUnfolds(y: seq<real>, line: Line, m: nat, e: real)
    requires |y| == m + 1 && e == y[m] - line.At(m)
    ensures SumsStep(SquaredError(y[..m], line), Dot(y[..m], y[..m]), Dot(Ramp(m), y[..m]), Sum(y[..m]),
                     Dot(Ramp(m), Ramp(m)), Sum(Ramp(m)), m as real,
                     m as real, y[m], e,
                     SquaredError(y, line), Dot(y, y), Dot(Ramp(m + 1), y), Sum(y),
                     Dot(Ramp(m + 1), Ramp(m + 1)), Sum(Ramp(m + 1)), (m + 1) as real)
  {
    assert Sum(y) == Sum(y[..m]) + y[m];
    hide Line.At, RealSums.Dot, RealSums.Sum, SquaredError, Ramp;
    RampUnfolds(m);
    RampDotUnfolds(y, m);
    DotSplit(y, y, m);
    SquaredErrorUnfolds(y, line, m, e);
  }

  lemma ErrorFormStep(q: real, yy: real, xy: real, y: real, xx: real, x: real, n: real, a: real, b: real,
                      i: real, v: real, e: real)
    requires ErrorForm(q, yy, xy, y, xx, x, n, a, b) && e == v - (a * i + b)
    ensures ErrorForm(q + e * e, yy + v * v, xy + i * v, y + v, xx + i * i, x + i, n + 1.0, a, b)
  {
    assert e * e == v * v - 2.0 * (a * (i * v)) - 2.0 * (b * v) + (a * a) * (i * i) + 2.0 * ((a * b) * i) + b * b;
  }

  lemma ErrorStep(q: real, yy: real, xy: real, y: real, xx: real, x: real, n: real, i: real, v: real, e: real,
                  q': real, yy': real, xy': real, y': real, xx': real, x': real, n': real, a: real, b: real)
    requires SumsStep(q, yy, xy, y, xx, x, n, i, v, e, q', yy', xy', y', xx', x', n')
    requires ErrorForm(q, yy, xy, y, xx, x, n, a, b) && e == v - (a * i + b)
    ensures ErrorForm(q', yy', xy', y', xx', x', n', a, b)
  {
    hide ErrorForm;
    ErrorFormStep(q, yy, xy, y, xx, x, n, a, b, i, v, e);
  }

  ghost predicate Expanded(y: seq<real>, line: Line) {
    ErrorForm(SquaredError(y, line), Dot(y, y), Dot(Ramp(|y|), y), Sum(y),
              Dot(Ramp(|y|), Ramp(|y|)), Sum(Ramp(|y|)), |y| as real, line.slope, line.intercept)
  }

  lemma NothingExpanded(line: Line)
    ensures Expanded([], line)
  {
    assert Ramp(0) == [] && Errors([], line) == [];
    assert Times([], []) == [];
  }

  lemma {:induction false} ErrorExpansion(y: seq<real>, line: Line)
    ensures Expanded(y, line)
  {
    hide Expanded;
    if y == [] {
      NothingExpanded(line);
    } else {
      var m := |y| - 1;
      ErrorExpansion(y[..m], line);
      ExpansionStep(y, line, m);
    }
  }

  lemma ExpansionStep(y: seq<real>, line: Line, m: nat)
    requires |y| == m + 1 && Expanded(y[..m], line)
    ensures Expanded(y, line)
  {
    hide RealSums.Sum, RealSums.Dot, SquaredError, Ramp, ErrorForm, SumsStep;
    var e := y[m] - line.At(m);
    ErrorUnfolds(y, line, m, e);
    ErrorStep(SquaredError(y[..m], line), Dot(y[..m], y[..m]), Dot(Ramp(m), y[..m]), Sum(y[..m]),
              Dot(Ramp(m), Ramp(m)), Sum(Ramp(m)), m as real,
              m as real, y[m], e,
              SquaredError(y, line), Dot(y, y), Dot(Ramp(m + 1), y), Sum(y),
              Dot(Ramp(m + 1), Ramp(m + 1)), Sum(Ramp(m + 1)), (m + 1) as real, line.slope, line.intercept);
  }

  // ----- the fitted line

  function SlopeOf(y: seq<real>): real
    requires Denominator(|y|) != 0.0
  {
    ((|y| as real) * Dot(Ramp(|y|), y) - Sum(Ramp(|y|)) * Sum(y)) / Denominator(|y|)
  }

  function Fit(y: seq<real>): Line
    requires y != [] && Denominator(|y|) != 0.0
  {
    var slope := SlopeOf(y);
    Line(slope, (Sum(y) - slope * Sum(Ramp(|y|))) / |y| as real)
  }

  /** The horizontal line through the mean, which R^2 compares the fit against. */
  function MeanLine(y: seq<real>): Line
    requires y != []
  {
    Line(0.0, Sum(y) / |y| as real)
  }

  // What the definitions above say about plain numbers.

  predicate IsDenominator(d: real, n: real, xx: real, x: real) {
    d == n * xx - x * x
  }

  predicate IsFit(m: real, k: real, xy: real, y: real, x: real, n: real, d: real) {
    m * d == n * xy - x * y && k * n == y - m * x
  }

  lemma DenominatorMeaning(n: nat)
    ensures IsDenominator(Denominator(n), n as real, Dot(Ramp(n), Ramp(n)), Sum(Ramp(n)))
  {
    hide RealSums.Sum, RealSums.Dot, Ramp;
  }

  lemma FitMeaning(y: seq<real>)
    requires y != [] && Denominator(|y|) != 0.0
    ensures IsFit(Fit(y).slope, Fit(y).intercept, Dot(Ramp(|y|), y), Sum(y), Sum(Ramp(|y|)), |y| as real,
                  Denominator(|y|))
  {
    hide RealSums.Sum, RealSums.Dot, Ramp, Denominator;
    ClearQuotient(SlopeOf(y), (|y| as real) * Dot(Ramp(|y|), y) - Sum(Ramp(|y|)) * Sum(y), Denominator(|y|));
    ClearQuotient(Fit(y).intercept, Sum(y) - SlopeOf(y) * Sum(Ramp(|y|)), |y| as real);
  }

  lemma MeanMeaning(y: seq<real>)
    requires y != []
    ensures MeanLine(y).slope == 0.0 && MeanLine(y).intercept * (|y| as real) == Sum(y)
  {
    hide RealSums.Sum;
    ClearQuotient(MeanLine(y).intercept, Sum(y), |y| as real);
  }

  /** Both partial derivatives of the squared error vanish at slope m, intercept k. */
  predicate NormalEquations(m: real, k: real, xy: real, y: real, xx: real, x: real, n: real) {
    && m * xx + k * x == xy
    && m * x + k * n == y
  }

  lemma SolvesNormalEquations(m: real, k: real, xy: real, y: real, xx: real, x: real, n: real, d: real)
    requires n > 0.0 && d != 0.0 && IsDenominator(d, n, xx, x) && IsFit(m, k, xy, y, x, n, d)
    ensures NormalEquations(m, k, xy, y, xx, x, n)
  {
    var z := m * xx + k * x - xy;
    assert n * z == m * d + x * (m * x) + x * (k * n) - n * xy;
    assert n * z == 0.0;
    assert z == 0.0;
  }

  lemma LeastSquares(p: real, q: real, yy: real, xy: real, y: real, xx: real, x: real, n: real, d: real,
                     m: real, k: real, a: real, b: real)
    requires n > 0.0 && d > 0.0 && IsDenominator(d, n, xx, x) && NormalEquations(m, k, xy, y, xx, x, n)
    requires ErrorForm(p, yy, xy, y, xx, x, n, m, k) && ErrorForm(q, yy, xy, y, xx, x, n, a, b)
    ensures p <= q
  {
    var u, v := a - m, b - k;
    var form := (u * u) * xx + 2.0 * ((u * v) * x) + (v * v) * n;
    assert q - p == form + 2.0 * (u * (m * xx + k * x - xy)) + 2.0 * (v * (m * x + k * n - y));
    FormNonNegative(u, v, xx, x, n, form);
  }

  lemma FormNonNegative(u: real, v: real, xx: real, x: real, n: real, form: real)
    requires n > 0.0 && n * xx - x * x >= 0.0
    requires form == (u * u) * xx + 2.0 * ((u * v) * x) + (v * v) * n
    ensures form >= 0.0
  {
    var w, d := n * v + u * x, n * xx - x * x;
    var sq, part := w * w, (u * u) * d;
    assert sq >= 0.0 && u * u >= 0.0;
    assert part >= 0.0;
    assert n * form == sq + part;
    if form < 0.0 {
      PositiveProduct(n, -form, -(n * form));
    }
  }

  /** No line whatsoever has a smaller squared error than the fitted one. */
  lemma FitIsOptimal(y: seq<real>, line: Line)
    requires |y| >= 2
    ensures Denominator(|y|) >= 1.0
    ensures SquaredError(y, Fit(y)) <= SquaredError(y, line)
  {
    hide RealSums.Sum, RealSums.Dot, SquaredError, Ramp, ErrorForm, NormalEquations, IsDenominator, IsFit, Fit,
      SlopeOf, Denominator;
    var n, r := |y| as real, Ramp(|y|);
    DenominatorPositive(|y|);
    DenominatorMeaning(|y|);
    FitMeaning(y);
    var fit, d := Fit(y), Denominator(|y|);
    SolvesNormalEquations(fit.slope, fit.intercept, Dot(r, y), Sum(y), Dot(r, r), Sum(r), n, d);
    ErrorExpansion(y, fit);
    ErrorExpansion(y, line);
    LeastSquares(SquaredError(y, fit), SquaredError(y, line), Dot(y, y), Dot(r, y), Sum(y), Dot(r, r), Sum(r),
                 n, d, fit.slope, fit.intercept, line.slope, line.intercept);
  }

  // ----- the detector's decision

  function Abs(r: real): real {
    if r < 0.0 then -r else r
  }

  function RSquared(y: seq<real>): real
    requires y != [] && Denominator(|y|) != 0.0
  {
    var total := SquaredError(y, MeanLine(y));
    if total > TINY then 1.0 - SquaredError(y, Fit(y)) / total else 0.0
  }

  /** The sweep rate in Hz per second exceeds a hundredth of the sample rate. */
  predicate SteepEnough(slope: real, sr: real) {
    Abs(slope * sr) > sr / 100.0
  }

  predicate IsChirp(y: seq<real>, sr: real)
    requires y != [] && Denominator(|y|) != 0.0
  {
    RSquared(y) > 0.95 && SteepEnough(Fit(y).slope, sr)
  }

  /** A chirp is reported exactly if the fit leaves under a twentieth of the variation, which is not tiny itself. */
  lemma ChirpByResidual(y: seq<real>, sr: real)
    requires |y| >= 2 && sr > 0.0
    ensures Denominator(|y|) >= 1.0
    ensures IsChirp(y, sr) <==>
            && SquaredError(y, MeanLine(y)) > 1.0 / 1000000000000.0
            && 20.0 * SquaredError(y, Fit(y)) < SquaredError(y, MeanLine(y)) && Abs(Fit(y).slope) > 0.01
  {
    hide SquaredError, Fit, MeanLine, Denominator, Abs, SteepEnough;
    DenominatorPositive(|y|);
    ScaledMagnitude(Fit(y).slope, sr);
    var total, rest := SquaredError(y, MeanLine(y)), SquaredError(y, Fit(y));
    if total > TINY {
      FractionBelow(rest / total, rest, total);
    }
  }

  lemma FractionBelow(q: real, a: real, b: real)
    requires b > 0.0 && q == a / b
    ensures 1.0 - q > 0.95 <==> 20.0 * a < b
  {
    ClearQuotient(q, a, b);
    if q < 0.05 {
      PositiveProduct(0.05 - q, b, 0.05 * b - a);
    } else {
      ProductOfOrdered(0.0, q - 0.05, 0.0, b);
      assert (q - 0.05) * b == a - 0.05 * b;
    }
  }

  lemma SquaredErrorNonNegative(y: seq<real>, line: Line)
    ensures SquaredError(y, line) >= 0.0
  {
    DotSelfNonNegative(Errors(y, line));
  }

  /** R^2 is a genuine fraction: the residual never exceeds the total variation. */
  lemma RSquaredInUnitInterval(y: seq<real>)
    requires |y| >= 2
    ensures Denominator(|y|) >= 1.0
    ensures 0.0 <= SquaredError(y, Fit(y)) <= SquaredError(y, MeanLine(y))
    ensures 0.0 <= RSquared(y) <= 1.0
  {
    FitIsOptimal(y, MeanLine(y));
    SquaredErrorNonNegative(y, Fit(y));
    hide SquaredError, Fit, MeanLine;
    var total := SquaredError(y, MeanLine(y));
    if total > TINY {
      QuotientInUnit(SquaredError(y, Fit(y)), total);
    }
  }

  // ----- exactly linear sweeps

  /** The instantaneous frequency starts at c and grows by s every sample. */
  ghost predicate Linear(y: seq<real>, c: real, s: real) {
    forall i :: 0 <= i < |y| ==> y[i] == c * 1.0 + s * (i as real)
  }

  function Ones(n: nat): (r: seq<real>)
    ensures |r| == n && forall i :: 0 <= i < n ==> r[i] == 1.0
  {
    seq(n, i => 1.0)
  }

  lemma ScaledPair(i: real, v: real, c: real, s: real, iv: real, ii: real)
    requires v == c * 1.0 + s * i && iv == i * v && ii == i * i
    ensures iv == c * i + s * ii
  {
  }

  lemma LinearCombinations(y: seq<real>, c: real, s: real, r: seq<real>)
    requires Linear(y, c, s) && r == Ramp(|y|)
    ensures |r| == |y|
    ensures Combination(y, Ones(|y|), r, c, s)
    ensures Combination(Times(r, y), r, Times(r, r), c, s)
  {
    forall i | 0 <= i < |y|
      ensures Times(r, y)[i] == c * r[i] + s * Times(r, r)[i]
    {
      ScaledPair(r[i], y[i], c, s, Times(r, y)[i], Times(r, r)[i]);
    }
  }

  lemma LinearSums(y: seq<real>, c: real, s: real)
    requires Linear(y, c, s)
    ensures SumsOfLinear(c, s, Dot(Ramp(|y|), y), Sum(y), Dot(Ramp(|y|), Ramp(|y|)), Sum(Ramp(|y|)), |y| as real)
  {
    hide Combination, RealSums.Sum, Linear;
    var r := Ramp(|y|);
    LinearCombinations(y, c, s, r);
    SumLinear(y, Ones(|y|), r, c, s);
    SumConstant(Ones(|y|), 1.0);
    SumLinear(Times(r, y), r, Times(r, r), c, s);
  }

  lemma LinearHasNoError(y: seq<real>, c: real, s: real)
    requires Linear(y, c, s)
    ensures SquaredError(y, Line(s, c)) == 0.0
  {
    var e := Errors(y, Line(s, c));
    assert forall i :: 0 <= i < |e| ==> e[i] == 0.0;
    SumConstant(Times(e, e), 0.0);
  }

  predicate SumsOfLinear(c: real, s: real, xy: real, y: real, xx: real, x: real, n: real) {
    y == c * n + s * x && xy == c * x + s * xx
  }

  lemma SlopeOfLinear(c: real, s: real, xy: real, y: real, xx: real, x: real, n: real, d: real, m: real, k: real)
    requires d > 0.0 && IsDenominator(d, n, xx, x) && SumsOfLinear(c, s, xy, y, xx, x, n)
    requires IsFit(m, k, xy, y, x, n, d)
    ensures m == s
  {
    assert n * xy - x * y == s * d;
    OrderedByFactor(m, s, d);
    OrderedByFactor(s, m, d);
  }

  /** The total variation of a linear sweep, cleared of the division by n. */
  predicate TotalVariation(q: real, n: real, s: real, d: real) {
    q * n == (s * s) * d
  }

  lemma TotalOfLinear(q: real, z: real, yy: real, xy: real, y: real, xx: real, x: real, n: real, d: real,
                      c: real, s: real, mean: real)
    requires IsDenominator(d, n, xx, x) && SumsOfLinear(c, s, xy, y, xx, x, n)
    requires ErrorForm(q, yy, xy, y, xx, x, n, 0.0, mean) && mean * n == y
    requires ErrorForm(z, yy, xy, y, xx, x, n, s, c) && z == 0.0
    ensures TotalVariation(q, n, s, d)
  {
    assert yy == (s * s) * xx + 2.0 * ((s * c) * x) + (c * c) * n;
    assert q * n == n * yy - 2.0 * ((mean * n) * y) + (mean * n) * (mean * n);
    assert y * y == (c * n) * (c * n) + 2.0 * ((c * n) * (s * x)) + (s * x) * (s * x);
  }

  lemma LinearTotal(y: seq<real>, c: real, s: real)
    requires |y| >= 2 && Linear(y, c, s)
    ensures TotalVariation(SquaredError(y, MeanLine(y)), |y| as real, s, Denominator(|y|))
  {
    hide RealSums.Sum, RealSums.Dot, SquaredError, Ramp, ErrorForm, Linear, SumsOfLinear, IsDenominator,
         TotalVariation, Denominator, MeanLine;
    var r, n := Ramp(|y|), |y| as real;
    LinearHasNoError(y, c, s);
    LinearSums(y, c, s);
    DenominatorMeaning(|y|);
    MeanMeaning(y);
    ErrorExpansion(y, Line(s, c));
    ErrorExpansion(y, MeanLine(y));
    TotalOfLinear(SquaredError(y, MeanLine(y)), SquaredError(y, Line(s, c)), Dot(y, y), Dot(r, y), Sum(y),
                  Dot(r, r), Sum(r), n, Denominator(|y|), c, s, MeanLine(y).intercept);
  }

  /** The fit recovers the rate of an exactly linear sweep. */
  lemma LinearSlope(y: seq<real>, c: real, s: real)
    requires |y| >= 2 && Linear(y, c, s)
    ensures Denominator(|y|) >= 1.0
    ensures Fit(y).slope == s
  {
    hide *;
    var r := Ramp(|y|);
    DenominatorPositive(|y|);
    DenominatorMeaning(|y|);
    LinearSums(y, c, s);
    FitMeaning(y);
    SlopeOfLinear(c, s, Dot(r, y), Sum(y), Dot(r, r), Sum(r), |y| as real, Denominator(|y|),
                  Fit(y).slope, Fit(y).intercept);
  }

  /** And it leaves no residual. */
  lemma LinearResidual(y: seq<real>, c: real, s: real)
    requires |y| >= 2 && Linear(y, c, s)
    ensures Denominator(|y|) >= 1.0
    ensures SquaredError(y, Fit(y)) == 0.0
  {
    hide *;
    FitIsOptimal(y, Line(s, c));
    LinearHasNoError(y, c, s);
    SquaredErrorNonNegative(y, Fit(y));
  }

  lemma TotalAboveTiny(q: real, n: real, s: real, d: real)
    requires n >= 10.0 && 12.0 * d == n * n * (n * n - 1.0) && TotalVariation(q, n, s, d)
    requires Abs(s) > 0.01
    ensures q > TINY
  {
    LargeDenominator(n, d);
    SquareStrict(Abs(s), 0.01);
    LargeTotal(q, n, s * s, d);
  }

  lemma LargeDenominator(n: real, d: real)
    requires n >= 10.0 && 12.0 * d == n * n * (n * n - 1.0)
    ensures d >= 80.0 * n
  {
    var p := n * n;
    ProductOfOrdered(10.0, n, 10.0, n);
    ProductOfOrdered(10.0, n, 99.0, p - 1.0);
    var k := n * (p - 1.0);
    assert 12.0 * d == n * k;
    ProductOfOrdered(n, n, 960.0, k);
  }

  lemma LargeTotal(q: real, n: real, w: real, d: real)
    requires n > 0.0 && w >= 0.0001 && d >= 80.0 * n && q * n == w * d
    ensures q > TINY
  {
    ProductOfOrdered(0.0001, w, 80.0 * n, d);
    QuotientAbove(q, n, w * d);
  }

  lemma QuotientAbove(q: real, n: real, t: real)
    requires n > 0.0 && q * n == t && t >= 0.008 * n
    ensures q >= 0.008
  {
    OrderedByFactor(0.008, q, n);
  }

  lemma ScaledMagnitude(s: real, sr: real)
    requires sr > 0.0
    ensures SteepEnough(s, sr) <==> Abs(s) > 0.01
  {
    assert Abs(s * sr) == Abs(s) * sr by {
      if s < 0.0 {
        PositiveProduct(-s, sr, -(s * sr));
      } else if s > 0.0 {
        PositiveProduct(s, sr, s * sr);
      }
    }
    if Abs(s) > 0.01 {
      PositiveProduct(Abs(s) - 0.01, sr, Abs(s) * sr - 0.01 * sr);
    } else {
      ProductOfOrdered(Abs(s), 0.01, sr, sr);
    }
  }

  lemma LinearRSquared(y: seq<real>, c: real, s: real)
    requires |y| >= 10 && Linear(y, c, s) && Abs(s) > 0.01
    ensures Denominator(|y|) >= 1.0
    ensures RSquared(y) == 1.0
  {
    DenominatorPositive(|y|);
    LinearResidual(y, c, s);
    LinearTotal(y, c, s);
    hide SquaredError, Fit, MeanLine, Linear, Denominator, TotalVariation;
    TotalAboveTiny(SquaredError(y, MeanLine(y)), |y| as real, s, Denominator(|y|));
  }

  /**
   Completeness and soundness on exact sweeps: a linear sweep of at least ten samples is reported
   exactly when its rate exceeds 0.01 Hz per sample, and the reported slope is the true one.
   */
  lemma LinearSweepDetected(y: seq<real>, c: real, s: real, sr: real)
    requires |y| >= 10 && sr > 0.0 && Linear(y, c, s)
    ensures Denominator(|y|) >= 1.0
    ensures IsChirp(y, sr) <==> Abs(s) > 0.01
    ensures Fit(y).slope == s
  {
    LinearSlope(y, c, s);
    ScaledMagnitude(s, sr);
    hide RSquared, Fit, Abs, SteepEnough, Linear, Denominator;
    if Abs(s) > 0.01 {
      LinearRSquared(y, c, s);
    }
  }

  // ----- carrier offset

  /** The same sweep seen d hertz away. */
  function Shifted(y: seq<real>, d: real): (z: seq<real>)
    ensures |z| == |y| && forall i :: 0 <= i < |z| ==> z[i] == y[i] + d
  {
    seq(|y|, i requires 0 <= i < |y| => y[i] + d)
  }

  predicate SumsShifted(d: real, y: real, xy: real, x: real, n: real, y': real, xy': real) {
    y' == y + d * n && xy' == xy + d * x
  }

  lemma ShiftedCombinations(y: seq<real>, d: real, r: seq<real>)
    requires r == Ramp(|y|)
    ensures |r| == |y|
    ensures Combination(Shifted(y, d), y, Ones(|y|), 1.0, d)
    ensures Combination(Times(r, Shifted(y, d)), Times(r, y), r, 1.0, d)
  {
    forall i | 0 <= i < |y|
      ensures Times(r, Shifted(y, d))[i] == 1.0 * Times(r, y)[i] + d * r[i]
    {
      Distribute(r[i], y[i], d);
    }
  }

  lemma ShiftedSum(y: seq<real>, d: real)
    ensures Sum(Shifted(y, d)) == Sum(y) + d * (|y| as real)
  {
    hide Combination, RealSums.Sum, Shifted;
    ShiftedCombinations(y, d, Ramp(|y|));
    SumLinear(Shifted(y, d), y, Ones(|y|), 1.0, d);
    SumConstant(Ones(|y|), 1.0);
  }

  lemma ShiftedRampDot(y: seq<real>, d: real, r: seq<real>)
    requires r == Ramp(|y|)
    ensures |r| == |y|
    ensures Dot(r, Shifted(y, d)) == Dot(r, y) + d * Sum(r)
  {
    hide Combination, RealSums.Sum, RealSums.Times, Shifted;
    ShiftedCombinations(y, d, r);
    SumLinear(Times(r, Shifted(y, d)), Times(r, y), r, 1.0, d);
  }

  lemma ShiftedSums(y: seq<real>, d: real)
    ensures SumsShifted(d, Sum(y), Dot(Ramp(|y|), y), Sum(Ramp(|y|)), |y| as real,
                        Sum(Shifted(y, d)), Dot(Ramp(|y|), Shifted(y, d)))
  {
    hide RealSums.Sum, RealSums.Dot, RealSums.Times, Shifted, Ramp;
    ShiftedSum(y, d);
    ShiftedRampDot(y, d, Ramp(|y|));
  }

  lemma ShiftedFitParts(xy: real, y: real, x: real, n: real, d: real, den: real, xy': real, y': real,
                        m: real, k: real, m': real, k': real)
    requires n > 0.0 && den > 0.0 && SumsShifted(d, y, xy, x, n, y', xy')
    requires IsFit(m, k, xy, y, x, n, den) && IsFit(m', k', xy', y', x, n, den)
    ensures m' == m && k' == k + d
  {
    assert n * xy' - x * y' == n * xy - x * y;
    OrderedByFactor(m', m, den);
    OrderedByFactor(m, m', den);
    assert k' * n == (k + d) * n;
    OrderedByFactor(k', k + d, n);
    OrderedByFactor(k + d, k', n);
  }

  lemma ShiftedFit(y: seq<real>, d: real)
    requires |y| >= 2
    ensures Denominator(|y|) >= 1.0
    ensures Fit(Shifted(y, d)) == Line(Fit(y).slope, Fit(y).intercept + d)
  {
    hide *;
    var z, r := Shifted(y, d), Ramp(|y|);
    DenominatorPositive(|y|);
    ShiftedSums(y, d);
    FitMeaning(y);
    FitMeaning(z);
    ShiftedFitParts(Dot(r, y), Sum(y), Sum(r), |y| as real, d, Denominator(|y|), Dot(r, z), Sum(z),
                    Fit(y).slope, Fit(y).intercept, Fit(z).slope, Fit(z).intercept);
  }

  lemma ShiftedMean(y: seq<real>, d: real)
    requires y != []
    ensures MeanLine(Shifted(y, d)) == Line(0.0, MeanLine(y).intercept + d)
  {
    hide MeanLine, RealSums.Sum, RealSums.Dot;
    ShiftedSums(y, d);
    MeanMeaning(y);
    MeanMeaning(Shifted(y, d));
    var k, k', n := MeanLine(y).intercept, MeanLine(Shifted(y, d)).intercept, |y| as real;
    assert k' * n == (k + d) * n;
    OrderedByFactor(k', k + d, n);
    OrderedByFactor(k + d, k', n);
  }

  lemma ShiftedError(y: seq<real>, d: real, line: Line)
    ensures SquaredError(Shifted(y, d), Line(line.slope, line.intercept + d)) == SquaredError(y, line)
  {
    var e, e' := Errors(y, line), Errors(Shifted(y, d), Line(line.slope, line.intercept + d));
    forall i | 0 <= i < |y|
      ensures e'[i] == e[i]
    {
      assert Line(line.slope, line.intercept + d).At(i) == line.At(i) + d;
    }
    assert e' == e;
  }

  /** A carrier offset changes neither the decision nor the reported sweep rate. */
  lemma OffsetInvariant(y: seq<real>, d: real, sr: real)
    requires |y| >= 2
    ensures Denominator(|y|) >= 1.0
    ensures IsChirp(Shifted(y, d), sr) <==> IsChirp(y, sr)
    ensures Fit(Shifted(y, d)).slope == Fit(y).slope
  {
    hide SquaredError, Fit, MeanLine, Denominator, SteepEnough;
    ShiftedFit(y, d);
    ShiftedMean(y, d);
    MeanMeaning(y);
    ShiftedError(y, d, Fit(y));
    ShiftedError(y, d, MeanLine(y));
    var z := Shifted(y, d);
    assert SquaredError(z, Fit(z)) == SquaredError(y, Fit(y));
    assert SquaredError(z, MeanLine(z)) == SquaredError(y, MeanLine(y));
    assert RSquared(z) == RSquared(y);
  }

  // ----- the detector

  /** The first differences of phase, in hertz; arg and pi stand for std::arg, place by place, and its constant. */
  function InstantaneousFrequency(x: seq<Complex>, n: nat, sr: real, arg: (nat, Complex) -> real, pi: real)
    : (y: seq<real>)
    requires n < |x| && pi > 0.0
    ensures |y| == n && forall i :: 0 <= i < n ==> y[i] == PhaseStep(x, i, sr, arg, pi)
  {
    seq(n, i requires 0 <= i < n => PhaseStep(x, i, sr, arg, pi))
  }

  function PhaseStep(x: seq<Complex>, i: nat, sr: real, arg: (nat, Complex) -> real, pi: real): real
    requires i + 1 < |x| && pi > 0.0
  {
    ToHertz(arg(i, x[i + 1].Times(x[i].Conj())), sr, pi)
  }

  function ToHertz(phase: real, sr: real, pi: real): real
    requires pi > 0.0
  {
    phase * sr / (2.0 * pi)
  }

  /** At most a thousand phase steps are analysed. */
  function StepCount(x: seq<Complex>): int {
    if |x| - 1 < 1000 then |x| - 1 else 1000
  }

  // ----- samples that turn

  /** Sample k turns by the factor w into the next one, and w and its positive multiples have this angle. */
  ghost predicate Turns(x: seq<Complex>, k: nat, w: Complex, angle: real, arg: (nat, Complex) -> real)
    requires k + 1 < |x|
  {
    && w != CZERO && x[k + 1] == x[k].Times(w)
    && (forall r: real :: r > 0.0 ==> arg(k, w.ScaledBy(r)) == angle)
  }

  /** From sample to sample the factor's angle grows by step: a tone if step is zero, a sweep otherwise. */
  ghost predicate Sweep(x: seq<Complex>, w: seq<Complex>, angle: real, step: real, arg: (nat, Complex) -> real) {
    && |x| == |w| + 1 && x[0] != CZERO
    && (forall k :: 0 <= k < |w| ==> Turns(x, k, w[k], angle + step * (k as real), arg))
  }

  lemma TurnedBack(z: Complex, w: Complex)
    ensures z.Times(w).Times(z.Conj()) == w.ScaledBy(z.Norm())
  {
    TurnedBackParts(z.re, z.im, w.re, w.im);
  }

  lemma TurnedBackParts(a: real, b: real, u: real, v: real)
    ensures (a * u - b * v) * a - (a * v + b * u) * (-b) == (a * a + b * b) * u
    ensures (a * u - b * v) * (-b) + (a * v + b * u) * a == (a * a + b * b) * v
  {
  }

  lemma NonZeroNorm(z: Complex)
    ensures z != CZERO <==> z.Norm() > 0.0
  {
    if z.re != 0.0 {
      NonZeroSquare(z.re, z.re * z.re);
    }
    if z.im != 0.0 {
      NonZeroSquare(z.im, z.im * z.im);
    }
  }

  lemma {:induction false} NeverSilent(x: seq<Complex>, w: seq<Complex>, angle: real, step: real,
                                       arg: (nat, Complex) -> real, k: nat)
    requires Sweep(x, w, angle, step, arg) && k < |x|
    ensures x[k].Norm() > 0.0
  {
    hide Complex.Norm, Complex.Times, Complex.ScaledBy;
    if k == 0 {
      NonZeroNorm(x[0]);
    } else {
      NeverSilent(x, w, angle, step, arg, k - 1);
      assert Turns(x, k - 1, w[k - 1], angle + step * ((k - 1) as real), arg);
      NonZeroNorm(w[k - 1]);
      NormOfProduct(x[k - 1], w[k - 1]);
      PositiveProduct(x[k - 1].Norm(), w[k - 1].Norm(), x[k].Norm());
    }
  }

  lemma HertzOfSum(phase: real, a: real, s: real, k: real, sr: real, pi: real)
    requires pi > 0.0 && phase == a + s * k
    ensures ToHertz(phase, sr, pi) == ToHertz(a, sr, pi) * 1.0 + ToHertz(s, sr, pi) * k
  {
    assert (a + s * k) * sr / (2.0 * pi) == a * sr / (2.0 * pi) + (s * sr / (2.0 * pi)) * k;
  }

  lemma SweepStep(x: seq<Complex>, w: seq<Complex>, angle: real, step: real, sr: real, arg: (nat, Complex) -> real,
                  pi: real, k: nat)
    requires Sweep(x, w, angle, step, arg) && k + 1 < |x| && pi > 0.0
    ensures PhaseStep(x, k, sr, arg, pi) == ToHertz(angle, sr, pi) * 1.0 + ToHertz(step, sr, pi) * (k as real)
  {
    hide Complex.Norm, Complex.Times, Complex.ScaledBy, ToHertz;
    NeverSilent(x, w, angle, step, arg, k);
    assert Turns(x, k, w[k], angle + step * (k as real), arg);
    TurnedBack(x[k], w[k]);
    assert arg(k, w[k].ScaledBy(x[k].Norm())) == angle + step * (k as real);
    HertzOfSum(angle + step * (k as real), angle, step, k as real, sr, pi);
  }

  /** The frequencies measured of such samples are linear, whatever the samples' magnitudes are. */
  lemma SweepIsLinear(x: seq<Complex>, w: seq<Complex>, angle: real, step: real, n: nat, sr: real,
                      arg: (nat, Complex) -> real, pi: real)
    requires Sweep(x, w, angle, step, arg) && n < |x| && pi > 0.0
    ensures Linear(InstantaneousFrequency(x, n, sr, arg, pi), ToHertz(angle, sr, pi), ToHertz(step, sr, pi))
  {
    hide Sweep, PhaseStep, ToHertz;
    forall k | 0 <= k < n
      ensures PhaseStep(x, k, sr, arg, pi) == ToHertz(angle, sr, pi) * 1.0 + ToHertz(step, sr, pi) * (k as real)
    {
      SweepStep(x, w, angle, step, sr, arg, pi, k);
    }
  }

  /** What the detector says of turning samples: the rate of the turn, if it exceeds 0.01 Hz per sample. */
  lemma SweepReported(x: seq<Complex>, w: seq<Complex>, angle: real, step: real, n: nat, sr: real,
                      arg: (nat, Complex) -> real, pi: real)
    requires Sweep(x, w, angle, step, arg) && 10 <= n < |x| && pi > 0.0 && sr > 0.0
    ensures var y := InstantaneousFrequency(x, n, sr, arg, pi);
            && Denominator(|y|) >= 1.0
            && (IsChirp(y, sr) <==> Abs(step * sr / (2.0 * pi)) > 0.01)
            && Fit(y).slope == step * sr / (2.0 * pi)
  {
    hide Sweep, IsChirp, Fit, Denominator, Linear, Abs;
    SweepIsLinear(x, w, angle, step, n, sr, arg, pi);
    LinearSweepDetected(InstantaneousFrequency(x, n, sr, arg, pi), ToHertz(angle, sr, pi), ToHertz(step, sr, pi), sr);
  }

  lemma RateSign(step: real, sr: real, pi: real, slope: real)
    requires sr > 0.0 && pi > 0.0 && slope == step * sr / (2.0 * pi)
    ensures slope * sr > 0.0 <==> step > 0.0
    ensures slope * sr < 0.0 <==> step < 0.0
  {
    ClearQuotient(slope, step * sr, 2.0 * pi);
    if step > 0.0 {
      PositiveProduct(step, sr, step * sr);
      PositiveQuotient(step * sr, 2.0 * pi, slope);
      PositiveProduct(slope, sr, slope * sr);
    } else if step < 0.0 {
      PositiveProduct(-step, sr, -(step * sr));
      PositiveQuotient(-(step * sr), 2.0 * pi, -slope);
      PositiveProduct(-slope, sr, -(slope * sr));
    }
  }

  method DetectChirp(x: seq<Complex>, sr: real, arg: (nat, Complex) -> real, pi: real, rateIn: real)
    returns (found: bool, rate: real)
    requires pi > 0.0
    ensures |x| <= 10 ==> !found && rate == rateIn
    ensures StepCount(x) >= 10 ==>
              var y := InstantaneousFrequency(x, StepCount(x), sr, arg, pi);
              && Denominator(|y|) >= 1.0
              && found == IsChirp(y, sr)
              && rate == if found then Fit(y).slope * sr else rateIn
    // Samples that turn ever faster, or ever slower, are reported with the rate at which they do.
    ensures forall w, angle, step :: |x| > 10 && sr > 0.0 && Sweep(x, w, angle, step, arg) ==>
              && found == (Abs(step * sr / (2.0 * pi)) > 0.01)
              && (found ==> rate == (step * sr / (2.0 * pi)) * sr && (rate > 0.0 <==> step > 0.0))
  {
    hide IsChirp, Fit, Denominator, InstantaneousFrequency, Sweep, Abs;
    rate := rateIn;
    var n := if 1000 < |x| - 1 then 1000 else |x| - 1;
    if n < 10 {
      return false, rate;
    }
    var fi := PhaseSteps(x, n, sr, arg, pi);
    found, rate := Regress(fi, n, sr, rate);
    forall w, angle, step | sr > 0.0 && Sweep(x, w, angle, step, arg)
      ensures found == (Abs(step * sr / (2.0 * pi)) > 0.01)
      ensures found ==> rate == (step * sr / (2.0 * pi)) * sr && (rate > 0.0 <==> step > 0.0)
    {
      SweepReported(x, w, angle, step, n, sr, arg, pi);
      RateSign(step, sr, pi, step * sr / (2.0 * pi));
    }
  }

  method PhaseSteps(x: seq<Complex>, n: nat, sr: real, arg: (nat, Complex) -> real, pi: real) returns (fi: array<real>)
    requires n < |x| && pi > 0.0
    ensures fi[..] == InstantaneousFrequency(x, n, sr, arg, pi)
  {
    hide PhaseStep, InstantaneousFrequency;
    fi := new real[n];
    for i := 0 to n
      invariant forall j :: 0 <= j < i ==> fi[j] == PhaseStep(x, j, sr, arg, pi)
    {
      fi[i] := PhaseStep(x, i, sr, arg, pi);
    }
  }

  /** The regression and its R^2, on the instantaneous frequencies held in fi. */
  method Regress(fi: array<real>, n: nat, sr: real, rateIn: real) returns (found: bool, rate: real)
    requires n == fi.Length && n >= 10
    ensures Denominator(n) >= 1.0
    ensures found == IsChirp(fi[..], sr)
    ensures rate == if found then Fit(fi[..]).slope * sr else rateIn
  {
    hide RealSums.Sum, RealSums.Dot, Ramp, SquaredError;
    ghost var y := fi[..];
    var sumX, sumY, sumXX, sumXY := IndexSums(fi, n);
    DenominatorPositive(n);
    var denom := (n as real) * sumXX - sumX * sumX;
    assert denom == Denominator(n);
    rate := rateIn;
    if Abs(denom) < TINY {
      return false, rate;
    }
    var slope := ((n as real) * sumXY - sumX * sumY) / denom;
    var intercept := (sumY - slope * sumX) / n as real;
    assert slope == SlopeOf(y);
    assert Line(slope, intercept) == Fit(y);
    var meanY := sumY / n as real;
    var ssRes, ssTot := ErrorSums(fi, n, slope, intercept, meanY);
    var r2 := if ssTot > TINY then 1.0 - ssRes / ssTot else 0.0;
    var slopeHzS := slope * sr;
    if r2 > 0.95 && Abs(slopeHzS) > sr / 100.0 {
      return true, slopeHzS;
    }
    return false, rate;
  }

  method IndexSums(fi: array<real>, n: nat) returns (sumX: real, sumY: real, sumXX: real, sumXY: real)
    requires n == fi.Length
    ensures sumX == Sum(Ramp(n)) && sumY == Sum(fi[..])
    ensures sumXX == Dot(Ramp(n), Ramp(n)) && sumXY == Dot(Ramp(n), fi[..])
  {
    hide RealSums.Sum, RealSums.Dot;
    ghost var y, r := fi[..], Ramp(n);
    SumEmpty();
    DotStart(r, r);
    DotStart(r, y);
    sumX, sumY, sumXX, sumXY := 0.0, 0.0, 0.0, 0.0;
    for i := 0 to n
      invariant sumX == Sum(r[..i]) && sumY == Sum(y[..i])
      invariant sumXX == Dot(r[..i], r[..i]) && sumXY == Dot(r[..i], y[..i])
    {
      SumStep(r, i);
      SumStep(y, i);
      DotStep(r, r, i, i as real, i as real);
      DotStep(r, y, i, i as real, fi[i]);
      sumX := sumX + i as real;
      sumY := sumY + fi[i];
      sumXX := sumXX + (i as real) * (i as real);
      sumXY := sumXY + (i as real) * fi[i];
    }
    SumAll(r);
    SumAll(y);
  }

  method ErrorSums(fi: array<real>, n: nat, slope: real, intercept: real, meanY: real)
    returns (ssRes: real, ssTot: real)
    requires n == fi.Length
    ensures ssRes == SquaredError(fi[..], Line(slope, intercept))
    ensures ssTot == SquaredError(fi[..], Line(0.0, meanY))
  {
    hide RealSums.Dot, Errors;
    ghost var e, t := Errors(fi[..], Line(slope, intercept)), Errors(fi[..], Line(0.0, meanY));
    ssRes, ssTot := 0.0, 0.0;
    DotStart(e, e);
    DotStart(t, t);
    for i := 0 to n
      invariant ssRes == Dot(e[..i], e[..i]) && ssTot == Dot(t[..i], t[..i])
    {
      var pred := slope * (i as real) + intercept;
      var d, m := fi[i] - pred, fi[i] - meanY;
      FlatLine(meanY, i);
      DotStep(e, e, i, d, d);
      DotStep(t, t, i, m, m);
      ssRes := ssRes + d * d;
      ssTot := ssTot + m * m;
    }
  }

  lemma FlatLine(level: real, i: nat)
    ensures Line(0.0, level).At(i) == level
  {
  }
}
