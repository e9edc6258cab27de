/** Complex numbers over exact reals, and the sums the detectors form from them. */
module ComplexNumbers {
  import opened RealSums

  datatype Complex = Complex(re: real, im: real) {

    function Plus(z: Complex): Complex {
      Complex(re + z.re, im + z.im)
    }

    function Minus(z: Complex): Complex {
      Complex(re - z.re, im - z.im)
    }

    function Times(z: Complex): Complex {
      Complex(re * z.re - im * z.im, re * z.im + im * z.re)
    }

    function Conj(): Complex {
      Complex(re, -im)
    }

    function ScaledBy(r: real): Complex {
      Complex(r * re, r * im)
    }

    function Over(r: real): Complex
      requires r != 0.0
    {
      Complex(re / r, im / r)
    }

    /** The squared magnitude, which is what std::norm returns. */
    function Norm(): real {
      re * re + im * im
    }
  }

  const CZERO := Complex(0.0, 0.0)

  function ComplexSum(s: seq<Complex>): Complex {
    if s == [] then CZERO else ComplexSum(s[..|s| - 1]).Plus(s[|s| - 1])
  }

  function Norms(x: seq<Complex>): (r: seq<real>)
    ensures |r| == |x| && forall i :: 0 <= i < |r| ==> r[i] == x[i].Norm()
  {
    seq(|x|, i requires 0 <= i < |x| => x[i].Norm())
  }

  function Energy(x: seq<Complex>): real {
    Sum(Norms(x))
  }

  /** The products a[i] * conj(b[i]) whose sum is the correlation of a with b. */
  function CrossTerms(a: seq<Complex>, b: seq<Complex>): (r: seq<Complex>)
    requires |a| == |b|
    ensures |r| == |a| && forall i :: 0 <= i < |r| ==> r[i] == a[i].Times(b[i].Conj())
  {
    seq(|a|, i requires 0 <= i < |a| => a[i].Times(b[i].Conj()))
  }

  function Correlation(a: seq<Complex>, b: seq<Complex>): Complex
    requires |a| == |b|
  {
    ComplexSum(CrossTerms(a, b))
  }

  lemma ComplexSumEmpty()
    ensures ComplexSum([]) == CZERO
  {
  }

  lemma ComplexSumStep(s: seq<Complex>, i: nat)
    requires i < |s|
    ensures ComplexSum(s[..i + 1]) == ComplexSum(s[..i]).Plus(s[i])
  {
    assert s[..i + 1][..i] == s[..i];
  }

  lemma ComplexSumAll(s: seq<Complex>)
    ensures ComplexSum(s[..|s|]) == ComplexSum(s)
  {
    assert s[..|s|] == s;
  }

  lemma NormOfProduct(a: Complex, b: Complex)
    ensures a.Times(b).Norm() == a.Norm() * b.Norm()
    ensures b.Conj().Norm() == b.Norm()
  {
  }

  lemma NormNonNegative(z: Complex)
    ensures z.Norm() >= 0.0
  {
  }

  lemma TimesAssociative(a: Complex, b: Complex, c: Complex)
    ensures a.Times(b).Times(c) == a.Times(b.Times(c))
  {
  }

  lemma TimesDistributes(a: Complex, b: Complex, c: Complex)
    ensures a.Plus(b).Times(c) == a.Times(c).Plus(b.Times(c))
  {
  }

  lemma EnergyNonNegative(x: seq<Complex>)
    ensures Energy(x) >= 0.0
  {
    SumNonNegative(Norms(x));
  }

  ghost predicate Multiplied(c: seq<Complex>, a: seq<Complex>, w: Complex) {
    |a| == |c| && forall i :: 0 <= i < |c| ==> c[i] == a[i].Times(w)
  }

  ghost predicate HasParts(s: seq<Complex>, re: seq<real>, im: seq<real>) {
    |re| == |im| == |s| && forall i :: 0 <= i < |s| ==> s[i] == Complex(re[i], im[i])
  }

  /** A common complex factor moves out of a sum. */
  lemma {:induction false} ComplexSumFactor(c: seq<Complex>, a: seq<Complex>, w: Complex)
    requires Multiplied(c, a, w)
    ensures ComplexSum(c) == ComplexSum(a).Times(w)
  {
    if c == [] {
    } else {
      var n := |c| - 1;
      ComplexSumFactor(c[..n], a[..n], w);
      TimesDistributes(ComplexSum(a[..n]), a[n], w);
    }
  }

  /** The real and imaginary parts of a complex sum are the sums of the parts. */
  lemma {:induction false} ComplexSumParts(s: seq<Complex>, re: seq<real>, im: seq<real>)
    requires HasParts(s, re, im)
    ensures ComplexSum(s) == Complex(Sum(re), Sum(im))
  {
    if s == [] {
    } else {
      var n := |s| - 1;
      ComplexSumParts(s[..n], re[..n], im[..n]);
    }
  }

  /** The Cauchy-Schwarz inequality for a correlation of two sample sequences. */
  lemma {:induction false} ComplexCauchySchwarz(a: seq<Complex>, b: seq<Complex>)
    requires |a| == |b|
    ensures Correlation(a, b).Norm() <= Energy(a) * Energy(b)
  {
    if a == [] {
    } else {
      var n := |a| - 1;
      ComplexCauchySchwarz(a[..n], b[..n]);
      assert CrossTerms(a, b)[..n] == CrossTerms(a[..n], b[..n]);
      assert Norms(a)[..n] == Norms(a[..n]);
      assert Norms(b)[..n] == Norms(b[..n]);
      EnergyNonNegative(a[..n]);
      EnergyNonNegative(b[..n]);
      var c, z := Correlation(a[..n], b[..n]), a[n].Times(b[n].Conj());
      NormOfProduct(a[n], b[n].Conj());
      NormOfProduct(a[n], b[n]);
      NormNonNegative(a[n]);
      NormNonNegative(b[n]);
      CauchyStep(c.re, c.im, z.re, z.im, Energy(a[..n]), Energy(b[..n]), a[n].Norm(), b[n].Norm());
    }
  }

  /** The triangle inequality in the form it is needed: bounds[i] is the magnitude of s[i]. */
  lemma {:induction false} TriangleInequality(s: seq<Complex>, bounds: seq<real>)
    requires |s| == |bounds|
    requires forall i :: 0 <= i < |s| ==> bounds[i] >= 0.0 && s[i].Norm() == bounds[i] * bounds[i]
    ensures Sum(bounds) >= 0.0
    ensures ComplexSum(s).Norm() <= Sum(bounds) * Sum(bounds)
  {
    if s == [] {
    } else {
      var n := |s| - 1;
      TriangleInequality(s[..n], bounds[..n]);
      var c, z, p, m := ComplexSum(s[..n]), s[n], Sum(bounds[..n]), bounds[n];
      CauchyStep(c.re, c.im, z.re, z.im, p, p, m, m);
    }
  }
}
