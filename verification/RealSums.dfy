/**
 Finite sums over exact reals.

 The accumulator loops of the feature extractor add a sequence from its first element to its
 last, so `Sum` is defined from the end: each loop iteration is one unfolding of it.
 */
module RealSums {

  /** The value an accumulator holds after adding every element of s in order. */
  function Sum(s: seq<real>): real {
    if s == [] then 0.0 else Sum(s[..|s| - 1]) + s[|s| - 1]
  }

  function Times(a: seq<real>, b: seq<real>): (c: seq<real>)
    requires |a| == |b|
    ensures |c| == |a| && forall i :: 0 <= i < |c| ==> c[i] == a[i] * b[i]
  {
    seq(|a|, i requires 0 <= i < |a| => a[i] * b[i])
  }

  function Dot(a: seq<real>, b: seq<real>): real
    requires |a| == |b|
  {
    Sum(Times(a, b))
  }

  /** One iteration of an accumulator loop. */
  lemma SumStep(s: seq<real>, i: nat)
    requires i < |s|
    ensures Sum(s[..i + 1]) == Sum(s[..i]) + s[i]
  {
    assert s[..i + 1][..i] == s[..i];
  }

  lemma SumEmpty()
    ensures Sum([]) == 0.0
  {
  }

  lemma SumAll(s: seq<real>)
    ensures Sum(s[..|s|]) == Sum(s)
  {
    assert s[..|s|] == s;
  }

  lemma {:induction false} SumAppend(a: seq<real>, b: seq<real>)
    ensures Sum(a + b) == Sum(a) + Sum(b)
  {
    if b == [] {
      assert a + b == a;
    } else {
      var n := |b| - 1;
      SumAppend(a, b[..n]);
      assert (a + b)[..|a + b| - 1] == a + b[..n];
    }
  }

  /** c is the pointwise combination u*a + v*b. */
  ghost predicate Combination(c: seq<real>, a: seq<real>, b: seq<real>, u: real, v: real) {
    |a| == |b| == |c| && forall i :: 0 <= i < |c| ==> c[i] == u * a[i] + v * b[i]
  }

  lemma CombinationSplit(c: seq<real>, a: seq<real>, b: seq<real>, u: real, v: real, n: nat)
    requires Combination(c, a, b, u, v) && n + 1 == |c|
    ensures Combination(c[..n], a[..n], b[..n], u, v)
    ensures c[n] == u * a[n] + v * b[n]
  {
  }

  lemma CombinationLengths(c: seq<real>, a: seq<real>, b: seq<real>, u: real, v: real)
    requires Combination(c, a, b, u, v)
    ensures |a| == |b| == |c|
  {
  }

  lemma Distribute(u: real, x: real, y: real)
    ensures u * (x + y) == u * x + u * y
  {
  }

  lemma {:induction false} SumLinear(c: seq<real>, a: seq<real>, b: seq<real>, u: real, v: real)
    requires Combination(c, a, b, u, v)
    ensures Sum(c) == u * Sum(a) + v * Sum(b)
  {
    hide Combination;
    assert |a| == |b| == |c| by { CombinationLengths(c, a, b, u, v); }
    if c == [] {
    } else {
      var n := |c| - 1;
      CombinationSplit(c, a, b, u, v, n);
      SumLinear(c[..n], a[..n], b[..n], u, v);
      Distribute(u, Sum(a[..n]), a[n]);
      Distribute(v, Sum(b[..n]), b[n]);
    }
  }

  /** c is the pointwise multiple u*a. */
  ghost predicate Proportional(c: seq<real>, a: seq<real>, u: real) {
    |a| == |c| && forall i :: 0 <= i < |c| ==> c[i] == u * a[i]
  }

  lemma {:induction false} SumScale(c: seq<real>, a: seq<real>, u: real)
    requires Proportional(c, a, u)
    ensures Sum(c) == u * Sum(a)
  {
    if c == [] {
    } else {
      var n := |c| - 1;
      SumScale(c[..n], a[..n], u);
      Distribute(u, Sum(a[..n]), a[n]);
    }
  }

  lemma ScaledSquare(a: real, b: real, r: real, aa: real, bb: real)
    requires b == r * a && aa == a * a && bb == b * b
    ensures bb == (r * r) * aa
  {
  }

  lemma SquaresProportional(a: seq<real>, b: seq<real>, r: real)
    requires Proportional(b, a, r)
    ensures Proportional(Times(b, b), Times(a, a), r * r)
  {
    forall i | 0 <= i < |a|
      ensures Times(b, b)[i] == (r * r) * Times(a, a)[i]
    {
      ScaledSquare(a[i], b[i], r, Times(a, a)[i], Times(b, b)[i]);
    }
  }

  lemma {:induction false} SumMonotone(a: seq<real>, b: seq<real>)
    requires |a| == |b|
    requires forall i :: 0 <= i < |a| ==> a[i] <= b[i]
    ensures Sum(a) <= Sum(b)
  {
    if a == [] {
    } else {
      var n := |a| - 1;
      SumMonotone(a[..n], b[..n]);
    }
  }

  lemma {:induction false} SumConstant(a: seq<real>, v: real)
    requires forall i :: 0 <= i < |a| ==> a[i] == v
    ensures Sum(a) == (|a| as real) * v
  {
    if a == [] {
    } else {
      var n := |a| - 1;
      SumConstant(a[..n], v);
      assert (|a| as real) * v == (n as real) * v + v;
    }
  }

  lemma {:induction false} SumNonNegative(a: seq<real>)
    requires forall i :: 0 <= i < |a| ==> a[i] >= 0.0
    ensures Sum(a) >= 0.0
    ensures forall i :: 0 <= i < |a| ==> a[i] <= Sum(a)
  {
    if a == [] {
    } else {
      var n := |a| - 1;
      SumNonNegative(a[..n]);
      forall i | 0 <= i < |a|
        ensures a[i] <= Sum(a)
      {
        if i < n {
          assert a[i] == a[..n][i];
        }
      }
    }
  }

  lemma SumWithout(b: seq<real>, k: nat)
    requires k < |b|
    ensures Sum(b) == Sum(b[..k] + b[k + 1..]) + b[k]
  {
    hide Sum;
    assert b == b[..k + 1] + b[k + 1..];
    SumAppend(b[..k + 1], b[k + 1..]);
    SumAppend(b[..k], b[k + 1..]);
    SumStep(b, k);
  }

  lemma MultisetWithout(b: seq<real>, k: nat)
    requires k < |b|
    ensures multiset(b[..k] + b[k + 1..]) == multiset(b) - multiset{b[k]}
  {
    assert b == b[..k] + [b[k]] + b[k + 1..];
  }

  /** A sum does not depend on the order of its terms. */
  lemma {:induction false} SumPermutation(a: seq<real>, b: seq<real>)
    requires multiset(a) == multiset(b)
    ensures Sum(a) == Sum(b)
    decreases |a|
  {
    if a == [] {
      assert |multiset(b)| == |b|;
    } else {
      hide Sum;
      var n := |a| - 1;
      assert a[n] in multiset(b);
      var k :| 0 <= k < |b| && b[k] == a[n];
      MultisetWithout(a, n);
      MultisetWithout(b, k);
      SumPermutation(a[..n] + a[n + 1..], b[..k] + b[k + 1..]);
      SumWithout(a, n);
      SumWithout(b, k);
    }
  }

  lemma PositiveProduct(a: real, b: real, p: real)
    requires a > 0.0 && b > 0.0 && p == a * b
    ensures p > 0.0
  {
  }

  lemma PositiveSquare(e: real, p: real)
    requires e > 0.0 && p == e * e
    ensures p > 0.0
  {
    PositiveProduct(e, e, p);
  }

  lemma SquareStrict(x: real, y: real)
    requires x > y >= 0.0
    ensures x * x > y * y
  {
    PositiveProduct(x - y, x + y, (x - y) * (x + y));
    assert x * x - y * y == (x - y) * (x + y);
  }

  lemma SquareOrder(x: real, y: real)
    requires y >= 0.0
    requires x * x <= y * y
    ensures x <= y
  {
    if x > y {
      SquareStrict(x, y);
    }
  }

  lemma ProductOfOrdered(a: real, b: real, c: real, d: real)
    requires 0.0 <= a <= b && 0.0 <= c <= d
    ensures 0.0 <= a * c <= b * d
  {
    assert a * c <= b * c <= b * d;
  }

  /** The inductive step of the complex Cauchy-Schwarz inequality. */
  lemma CauchyStep(p: real, q: real, u: real, v: real, a: real, b: real, e: real, f: real)
    requires a >= 0.0 && b >= 0.0 && e >= 0.0 && f >= 0.0
    requires p * p + q * q <= a * b
    requires u * u + v * v == e * f
    ensures (p + u) * (p + u) + (q + v) * (q + v) <= (a + e) * (b + f)
  {
    var inner, cross := p * u + q * v, a * f + e * b;
    assert cross >= 0.0;
    assert inner * inner <= (p * p + q * q) * (u * u + v * v) by {
      var w := p * v - q * u;
      assert (p * p + q * q) * (u * u + v * v) - inner * inner == w * w;
      assert w * w >= 0.0;
    }
    ProductOfOrdered(p * p + q * q, a * b, e * f, e * f);
    assert (2.0 * inner) * (2.0 * inner) <= 4.0 * ((a * b) * (e * f));
    assert 4.0 * ((a * b) * (e * f)) <= cross * cross by {
      var d := a * f - e * b;
      assert cross * cross - 4.0 * ((a * b) * (e * f)) == d * d;
      assert d * d >= 0.0;
    }
    SquareOrder(2.0 * inner, cross);
    assert (p + u) * (p + u) + (q + v) * (q + v)
        == p * p + q * q + 2.0 * inner + (u * u + v * v);
    assert (a + e) * (b + f) == a * b + cross + e * f;
  }

  lemma TimesPrefix(a: seq<real>, b: seq<real>, n: nat)
    requires n <= |a| == |b|
    ensures Times(a, b)[..n] == Times(a[..n], b[..n])
  {
    var whole, part := Times(a, b), Times(a[..n], b[..n]);
    forall i | 0 <= i < n
      ensures whole[..n][i] == part[i]
    {
      assert whole[i] == a[i] * b[i];
      assert part[i] == a[..n][i] * b[..n][i];
    }
  }

  lemma DotSplit(a: seq<real>, b: seq<real>, m: nat)
    requires |a| == |b| == m + 1
    ensures Dot(a, b) == Dot(a[..m], b[..m]) + a[m] * b[m]
  {
    TimesPrefix(a, b, m);
  }

  /** One iteration of a loop that accumulates products. */
  lemma DotStep(a: seq<real>, b: seq<real>, i: nat, u: real, v: real)
    requires i < |a| == |b| && u == a[i] && v == b[i]
    ensures Dot(a[..i + 1], b[..i + 1]) == Dot(a[..i], b[..i]) + u * v
  {
    DotSplit(a[..i + 1], b[..i + 1], i);
    assert a[..i + 1][..i] == a[..i] && b[..i + 1][..i] == b[..i];
  }

  lemma DotStart(a: seq<real>, b: seq<real>)
    requires |a| == |b|
    ensures Dot(a[..0], b[..0]) == 0.0
    ensures a[..|a|] == a && b[..|b|] == b
  {
    assert Times(a[..0], b[..0]) == [];
  }

  lemma {:induction false} DotSelfNonNegative(a: seq<real>)
    ensures Dot(a, a) >= 0.0
  {
    SumNonNegative(Times(a, a));
  }

  lemma {:induction false} CauchySchwarz(a: seq<real>, b: seq<real>)
    requires |a| == |b|
    ensures Dot(a, b) * Dot(a, b) <= Dot(a, a) * Dot(b, b)
  {
    if a == [] {
    } else {
      var n := |a| - 1;
      var x, y := a[n], b[n];
      CauchySchwarz(a[..n], b[..n]);
      TimesPrefix(a, b, n);
      TimesPrefix(a, a, n);
      TimesPrefix(b, b, n);
      DotSelfNonNegative(a[..n]);
      DotSelfNonNegative(b[..n]);
      assert (x * y) * (x * y) + 0.0 * 0.0 == (x * x) * (y * y);
      CauchyStep(Dot(a[..n], b[..n]), 0.0, x * y, 0.0,
                 Dot(a[..n], a[..n]), Dot(b[..n], b[..n]), x * x, y * y);
    }
  }

  lemma PairSum(a: real, b: real)
    ensures Sum([a, b]) == a + b
  {
    SumConstant([a], a);
    SumConstant([b], b);
    SumAppend([a], [b]);
    assert [a, b] == [a] + [b];
  }

  // ----- mean and deviations

  function Mean(s: seq<real>): real
    requires s != []
  {
    Sum(s) / |s| as real
  }

  function Deviations(s: seq<real>): (d: seq<real>)
    requires s != []
    ensures |d| == |s| && forall k :: 0 <= k < |d| ==> d[k] == s[k] - Mean(s)
  {
    seq(|s|, k requires 0 <= k < |s| => s[k] - Mean(s))
  }

  // ----- quotients and factors

  lemma OrderedByFactor(a: real, b: real, p: real)
    requires p > 0.0 && a * p <= b * p
    ensures a <= b
  {
    assert a == (a * p) / p && b == (b * p) / p;
  }

  lemma EqualByFactor(a: real, b: real, w: real)
    requires w > 0.0 && a * w == b * w
    ensures a == b
  {
    OrderedByFactor(a, b, w);
    OrderedByFactor(b, a, w);
  }

  lemma ClearQuotient(q: real, a: real, b: real)
    requires b != 0.0 && q == a / b
    ensures q * b == a
  {
  }

  lemma QuotientInUnit(a: real, b: real)
    requires b > 0.0 && 0.0 <= a <= b
    ensures 0.0 <= a / b <= 1.0
  {
  }

  lemma QuotientBetween(a: real, b: real)
    requires b > 0.0 && -b <= a <= b
    ensures -1.0 <= a / b <= 1.0
  {
  }

  lemma PositiveQuotient(d: real, n: real, p: real)
    requires d > 0.0 && n > 0.0 && p == d / n
    ensures p > 0.0
  {
    assert d == p * n;
    if p < 0.0 {
      PositiveProduct(-p, n, -d);
    }
  }

  lemma SelfQuotient(a: real, b: real)
    requires a == b && b != 0.0
    ensures a / b == 1.0
  {
  }

  lemma NonZeroSquare(a: real, p: real)
    requires a != 0.0 && p == a * a
    ensures p > 0.0
  {
    if a > 0.0 {
      PositiveProduct(a, a, p);
    } else {
      PositiveProduct(-a, -a, p);
    }
  }

  // ----- variance

  function Variation(s: seq<real>): real
    requires s != []
  {
    Dot(Deviations(s), Deviations(s))
  }

  function VarianceOf(s: seq<real>): real
    requires s != []
  {
    Variation(s) / |s| as real
  }

  lemma MeanTimesCount(s: seq<real>)
    requires s != []
    ensures Mean(s) * (|s| as real) == Sum(s)
  {
    hide Sum;
    ClearQuotient(Mean(s), Sum(s), |s| as real);
  }

  lemma VarianceTimesCount(s: seq<real>, d: seq<real>)
    requires s != [] && d == Deviations(s)
    ensures VarianceOf(s) * (|s| as real) == Sum(Times(d, d))
  {
    hide Sum;
    ClearQuotient(VarianceOf(s), Dot(d, d), |s| as real);
  }
}
