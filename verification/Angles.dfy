/** Angles of complex numbers, as the detectors take them from the maths library: known by these laws only. */
module Angles {
  import opened ComplexNumbers

  /**
   std::arg of the samples (phase) and of the products of neighbours (turn), the constant pi, and the
   cosine and sine angles are measured by. The number beside the argument is its place in the block: on
   the negative real axis std::arg is pi or -pi by the sign of a zero imaginary part, which these numbers
   do not carry and which may differ from place to place.
   */
  datatype Circle = Circle(
    phase: (nat, Complex) -> real, turn: (nat, Complex) -> real, pi: real, cos: real -> real, sin: real -> real)

  /** The cosine and sine of a sum, and the cosine of a difference. */
  predicate AngleSums(c: Circle, s: real, t: real) {
    && c.cos(s + t) == c.cos(s) * c.cos(t) - c.sin(s) * c.sin(t)
    && c.sin(s + t) == c.sin(s) * c.cos(t) + c.cos(s) * c.sin(t)
    && c.cos(s - t) == c.cos(s) * c.cos(t) + c.sin(s) * c.sin(t)
  }

  /** A cosine lies above its parabola. */
  predicate AboveParabola(c: Circle, t: real) {
    c.cos(t) >= 1.0 - t * t / 2.0
  }

  /** The phase of z is its angle: together with the magnitude it gives z back. */
  predicate Polar(c: Circle, sqrt: real -> real, i: nat, z: Complex) {
    z == Complex(sqrt(z.Norm()) * c.cos(c.phase(i, z)), sqrt(z.Norm()) * c.sin(c.phase(i, z)))
  }

  /** On the real axis an argument is 0 to the right, and pi or -pi to the left. */
  predicate OnAxis(arg: (nat, Complex) -> real, pi: real, i: nat, r: real) {
    && (r > 0.0 ==> arg(i, Complex(r, 0.0)) == 0.0)
    && (r < 0.0 ==> arg(i, Complex(r, 0.0)) == pi || arg(i, Complex(r, 0.0)) == -pi)
  }

  ghost predicate IsCircle(c: Circle, sqrt: real -> real) {
    && 3.0 < c.pi < 3.2
    && (forall s, t :: AngleSums(c, s, t))
    && (forall t :: AboveParabola(c, t))
    && (forall i, z :: Polar(c, sqrt, i, z))
    && (forall i, r :: OnAxis(c.phase, c.pi, i, r))
    && (forall i, r :: OnAxis(c.turn, c.pi, i, r))
  }
}
