/** The real functions the program takes from its maths library, known here by these laws only. */
module RealFunctions {
  import opened RealSums

  ghost predicate IsSquareRoot(sqrt: real -> real) {
    forall t: real :: t >= 0.0 ==> sqrt(t) >= 0.0 && sqrt(t) * sqrt(t) == t
  }

  ghost predicate IsExponential(exp: real -> real) {
    && exp(0.0) == 1.0
    && (forall t: real :: exp(t) > 0.0)
    && (forall s: real, t: real :: s < t ==> exp(s) < exp(t))
  }

  lemma SquareOfZero(root: real, p: real)
    requires root * root == p
    ensures root == 0.0 ==> p == 0.0
  {
  }

  lemma RootPositive(p: real, sqrt: real -> real)
    requires p > 0.0 && IsSquareRoot(sqrt)
    ensures sqrt(p) > 0.0
  {
    SquareOfZero(sqrt(p), p);
  }

  lemma RootSquared(p: real, sqrt: real -> real)
    requires p > 0.0 && IsSquareRoot(sqrt)
    ensures sqrt(p) * sqrt(p) == p
  {
  }

  lemma RootOfSquare(v: real, p: real, sqrt: real -> real)
    requires IsSquareRoot(sqrt) && v >= 0.0 && p == v * v
    ensures sqrt(p) == v
  {
    var r := sqrt(p);
    assert p >= 0.0;
    assert r >= 0.0 && r * r == p;
    SquareOrder(r, v);
    SquareOrder(v, r);
  }
}
