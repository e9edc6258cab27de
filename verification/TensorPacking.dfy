/** Packing signals into model inputs, and reading the model's answers (OnnxClassifier). */
module TensorPacking {
  import opened Blocks
  import opened RealSums
  import opened RealFunctions

  // ----- rows laid out one after the other in a flat buffer

  function Row(flat: seq<real>, b: nat, width: nat): (r: seq<real>)
    requires StartOf(b, width) + width <= |flat|
    ensures |r| == width
  {
    flat[StartOf(b, width)..StartOf(b, width) + width]
  }

  ghost predicate Rectangular(rows: seq<seq<real>>, width: nat) {
    forall b :: 0 <= b < |rows| ==> |rows[b]| == width
  }

  function Joined(rows: seq<seq<real>>): seq<real> {
    if rows == [] then [] else Joined(rows[..|rows| - 1]) + rows[|rows| - 1]
  }

  lemma {:induction false} JoinedLength(rows: seq<seq<real>>, width: nat)
    requires Rectangular(rows, width)
    ensures |Joined(rows)| == StartOf(|rows|, width)
  {
    if rows == [] {
    } else {
      JoinedLength(rows[..|rows| - 1], width);
    }
  }

  /** Joining rows loses none of them: each can be cut out again where StartOf says. */
  lemma {:induction false} JoinedRow(rows: seq<seq<real>>, width: nat, b: nat)
    requires Rectangular(rows, width) && b < |rows|
    ensures StartOf(b, width) + width <= |Joined(rows)|
    ensures Row(Joined(rows), b, width) == rows[b]
  {
    var n := |rows| - 1;
    JoinedLength(rows, width);
    JoinedLength(rows[..n], width);
    if b == n {
    } else {
      JoinedRow(rows[..n], width, b);
      assert Row(Joined(rows), b, width) == Row(Joined(rows[..n]), b, width);
    }
  }

  lemma {:induction false} JoinedStep(rows: seq<seq<real>>, b: nat)
    requires b < |rows|
    ensures Joined(rows[..b + 1]) == Joined(rows[..b]) + rows[b]
  {
    assert rows[..b + 1][..b] == rows[..b];
  }

  // ----- the tensor of one signal

  /** How many complex samples fit: the signal is cut at length, and an odd last float is ignored. */
  function Copied(iq: seq<real>, length: nat): (n: nat)
    ensures n <= length && 2 * n <= |iq|
    ensures n == length || |iq| < 2 * n + 2
  {
    if |iq| / 2 < length then |iq| / 2 else length
  }

  /** The in-phase float of sample j, or zero beyond the first n samples. */
  function InPhase(iq: seq<real>, n: nat, j: nat): real
    requires 2 * n <= |iq|
  {
    if j < n then iq[2 * j] else 0.0
  }

  function Quadrature(iq: seq<real>, n: nat, j: nat): real
    requires 2 * n <= |iq|
  {
    if j < n then iq[2 * j + 1] else 0.0
  }

  /** In-phase samples first, then quadrature samples, each half padded with zeros. */
  function RawTensor(iq: seq<real>, length: nat): (t: seq<real>)
    ensures |t| == 2 * length
    ensures forall i :: 0 <= i < length ==> t[i] == InPhase(iq, Copied(iq, length), i)
    ensures forall i :: length <= i < 2 * length ==> t[i] == Quadrature(iq, Copied(iq, length), i - length)
  {
    seq(2 * length, i requires 0 <= i < 2 * length =>
      if i < length then InPhase(iq, Copied(iq, length), i) else Quadrature(iq, Copied(iq, length), i - length))
  }

  function MeanPower(t: seq<real>, length: nat): real
    requires length > 0
  {
    Dot(t, t) / length as real
  }

  function Scaled(t: seq<real>, gain: real): (r: seq<real>)
    ensures |r| == |t| && forall i :: 0 <= i < |r| ==> r[i] == gain * t[i]
  {
    seq(|t|, i requires 0 <= i < |t| => gain * t[i])
  }

  function Normalised(t: seq<real>, length: nat, sqrt: real -> real): (r: seq<real>)
    requires length > 0 && IsSquareRoot(sqrt)
    ensures |r| == |t|
  {
    var power := MeanPower(t, length);
    if power > 0.0 then RootPositive(power, sqrt); Scaled(t, 1.0 / sqrt(power)) else t
  }

  function Tensor(iq: seq<real>, length: nat, sqrt: real -> real): (t: seq<real>)
    requires length > 0 && IsSquareRoot(sqrt)
    ensures |t| == 2 * length
  {
    Normalised(RawTensor(iq, length), length, sqrt)
  }

  /** What normalising is for: the mean power becomes one, unless there was no power at all. */
  lemma UnitPower(t: seq<real>, length: nat, sqrt: real -> real)
    requires length > 0 && IsSquareRoot(sqrt)
    ensures MeanPower(t, length) > 0.0 ==> MeanPower(Normalised(t, length, sqrt), length) == 1.0
    ensures MeanPower(t, length) <= 0.0 ==> Normalised(t, length, sqrt) == t && forall i :: 0 <= i < |t| ==> t[i] == 0.0
  {
    hide RealSums.Sum, IsSquareRoot;
    var power := MeanPower(t, length);
    if power > 0.0 {
      RootPositive(power, sqrt);
      RootSquared(power, sqrt);
      ScaledPower(t, Scaled(t, 1.0 / sqrt(power)), 1.0 / sqrt(power));
      UnitAfterScaling(power, sqrt(power), 1.0 / sqrt(power), Dot(t, t), length as real,
                       MeanPower(Normalised(t, length, sqrt), length));
    } else {
      DotSelfNonNegative(t);
      NoPower(t, Dot(t, t), power, length as real);
    }
  }

  lemma ScaledPower(t: seq<real>, y: seq<real>, g: real)
    requires y == Scaled(t, g)
    ensures Dot(y, y) == (g * g) * Dot(t, t)
  {
    hide RealSums.Sum;
    SquaresProportional(t, y, g);
    SumScale(Times(y, y), Times(t, t), g * g);
  }

  lemma UnitAfterScaling(p: real, root: real, g: real, d: real, n: real, m: real)
    requires root > 0.0 && root * root == p && g == 1.0 / root && n > 0.0 && p == d / n && m == ((g * g) * d) / n
    ensures m == 1.0
  {
    ReciprocalSquare(root, g, p, g * g);
    CancelCount(g * g, p, d, n, m);
  }

  lemma ReciprocalSquare(root: real, g: real, p: real, gg: real)
    requires root > 0.0 && root * root == p && g == 1.0 / root && gg == g * g
    ensures gg * p == 1.0
  {
    assert g * root == 1.0;
    assert gg * p == (g * root) * (g * root);
  }

  lemma CancelCount(gg: real, p: real, d: real, n: real, m: real)
    requires n > 0.0 && p == d / n && m == (gg * d) / n && gg * p == 1.0
    ensures m == 1.0
  {
    assert d == p * n;
    assert gg * d == (gg * p) * n;
  }

  lemma NoPower(t: seq<real>, d: real, p: real, n: real)
    requires d == Dot(t, t) && d >= 0.0 && n > 0.0 && p == d / n && p <= 0.0
    ensures forall i :: 0 <= i < |t| ==> t[i] == 0.0
  {
    hide RealSums.Sum;
    NoSum(d, p, n);
    SumNonNegative(Times(t, t));
    forall i | 0 <= i < |t|
      ensures t[i] == 0.0
    {
      assert Times(t, t)[i] <= 0.0;
      OnlyZero(t[i], Times(t, t)[i]);
    }
  }

  lemma NoSum(d: real, p: real, n: real)
    requires d >= 0.0 && n > 0.0 && p == d / n && p <= 0.0
    ensures d == 0.0
  {
    if d > 0.0 {
      PositiveQuotient(d, n, p);
    }
  }

  lemma OnlyZero(v: real, vv: real)
    requires vv == v * v && vv <= 0.0
    ensures v == 0.0
  {
    if v > 0.0 {
      PositiveProduct(v, v, vv);
    } else if v < 0.0 {
      PositiveProduct(-v, -v, vv);
    }
  }

  lemma ScalingFactor(t: seq<real>, length: nat, sqrt: real -> real) returns (g: real)
    requires length > 0 && IsSquareRoot(sqrt)
    ensures g > 0.0 && forall i :: 0 <= i < |t| ==> Normalised(t, length, sqrt)[i] == g * t[i]
  {
    hide RealSums.Dot, IsSquareRoot;
    var power := MeanPower(t, length);
    if power > 0.0 {
      RootPositive(power, sqrt);
      g := 1.0 / sqrt(power);
    } else {
      g := 1.0;
    }
  }

  /**
   The signal can be read off the tensor: up to one positive factor sample j is at j and at length + j, as
   far as it fits, and zeros follow the last whole sample.
   */
  lemma TensorHoldsSignal(iq: seq<real>, length: nat, sqrt: real -> real) returns (g: real)
    requires length > 0 && IsSquareRoot(sqrt)
    ensures g > 0.0
    ensures var t := Tensor(iq, length, sqrt);
            forall j :: 0 <= j < length ==>
              if 2 * j + 1 < |iq| then t[j] == g * iq[2 * j] && t[length + j] == g * iq[2 * j + 1]
              else t[j] == 0.0 && t[length + j] == 0.0
  {
    hide IsSquareRoot, Normalised;
    var raw, t := RawTensor(iq, length), Tensor(iq, length, sqrt);
    g := ScalingFactor(raw, length, sqrt);
    forall j | 0 <= j < length
      ensures if 2 * j + 1 < |iq| then t[j] == g * iq[2 * j] && t[length + j] == g * iq[2 * j + 1]
              else t[j] == 0.0 && t[length + j] == 0.0
    {
      assert raw[length + j] == Quadrature(iq, Copied(iq, length), j);
      assert t[j] == g * raw[j] && t[length + j] == g * raw[length + j];
    }
  }

  /** The tensor does not depend on the gain the signal was received with. */
  lemma GainInvariant(iq: seq<real>, louder: seq<real>, gain: real, length: nat, sqrt: real -> real)
    requires length > 0 && IsSquareRoot(sqrt) && gain > 0.0 && louder == Scaled(iq, gain)
    ensures Tensor(louder, length, sqrt) == Tensor(iq, length, sqrt)
  {
    hide RealSums.Sum, IsSquareRoot, Normalised;
    var t, u := RawTensor(iq, length), RawTensor(louder, length);
    ScaledRaw(iq, louder, gain, length);
    ScaledPower(t, u, gain);
    NormalisedGain(t, u, gain, length, sqrt);
  }

  lemma ScaledRaw(iq: seq<real>, louder: seq<real>, gain: real, length: nat)
    requires louder == Scaled(iq, gain)
    ensures RawTensor(louder, length) == Scaled(RawTensor(iq, length), gain)
  {
    var t, u, n := RawTensor(iq, length), RawTensor(louder, length), Copied(iq, length);
    forall i | 0 <= i < 2 * length
      ensures u[i] == Scaled(t, gain)[i]
    {
      var k := if i < length then i else i - length;
      assert i == k || i == length + k;
      if k < n {
        assert louder[2 * k] == gain * iq[2 * k] && louder[2 * k + 1] == gain * iq[2 * k + 1];
      }
      assert Scaled(t, gain)[i] == gain * t[i];
    }
    assert u == Scaled(t, gain);
  }

  lemma NormalisedGain(t: seq<real>, u: seq<real>, gain: real, length: nat, sqrt: real -> real)
    requires length > 0 && IsSquareRoot(sqrt) && gain > 0.0 && u == Scaled(t, gain)
    requires Dot(u, u) == (gain * gain) * Dot(t, t)
    ensures Normalised(u, length, sqrt) == Normalised(t, length, sqrt)
  {
    hide RealSums.Dot, IsSquareRoot;
    var p, q := MeanPower(t, length), MeanPower(u, length);
    DotSelfNonNegative(t);
    PowerOfScaled(p, q, Dot(t, t), Dot(u, u), gain, length as real);
    if p > 0.0 {
      RootOfScaled(p, q, gain, sqrt);
      UndoGains(t, u, gain, sqrt(p), sqrt(q), 1.0 / sqrt(p), 1.0 / sqrt(q));
    } else {
      NoPower(t, Dot(t, t), p, length as real);
      forall i | 0 <= i < |t|
        ensures u[i] == t[i]
      {
      }
    }
  }

  lemma PowerOfScaled(p: real, q: real, d: real, e: real, gain: real, n: real)
    requires n > 0.0 && gain > 0.0 && p == d / n && q == e / n && e == (gain * gain) * d && d >= 0.0
    ensures q == (gain * gain) * p
    ensures p > 0.0 <==> q > 0.0
  {
    assert d == p * n && e == q * n;
    assert q * n == ((gain * gain) * p) * n;
    EqualByFactor(q, (gain * gain) * p, n);
    PositiveSquare(gain, gain * gain);
    if p > 0.0 {
      PositiveProduct(gain * gain, p, q);
    } else {
      NoSum(d, p, n);
    }
  }

  lemma RootOfScaled(p: real, q: real, gain: real, sqrt: real -> real)
    requires IsSquareRoot(sqrt) && p > 0.0 && gain > 0.0 && q == (gain * gain) * p && q > 0.0
    ensures sqrt(p) > 0.0 && sqrt(q) > 0.0 && sqrt(q) == gain * sqrt(p)
  {
    RootPositive(p, sqrt);
    RootPositive(q, sqrt);
    RootSquared(p, sqrt);
    RootSquared(q, sqrt);
    hide IsSquareRoot;
    EqualSquares(sqrt(p), sqrt(q), p, q, gain, gain * sqrt(p));
  }

  lemma EqualSquares(rp: real, rq: real, p: real, q: real, gain: real, scaled: real)
    requires rp > 0.0 && rq > 0.0 && gain > 0.0 && rp * rp == p && rq * rq == q && q == (gain * gain) * p
    requires scaled == gain * rp
    ensures rq == scaled
  {
    PositiveProduct(gain, rp, scaled);
    assert scaled * scaled == (gain * gain) * p;
    SquareOrder(rq, scaled);
    SquareOrder(scaled, rq);
  }

  lemma UndoGains(t: seq<real>, u: seq<real>, gain: real, rp: real, rq: real, ip: real, iq: real)
    requires rp > 0.0 && rq > 0.0 && rq == gain * rp && u == Scaled(t, gain) && ip == 1.0 / rp && iq == 1.0 / rq
    ensures Scaled(u, iq) == Scaled(t, ip)
  {
    forall i | 0 <= i < |t|
      ensures Scaled(u, iq)[i] == Scaled(t, ip)[i]
    {
      UndoGain(t[i], u[i], gain, rp, rq, ip, iq);
    }
  }

  lemma UndoGain(t: real, u: real, gain: real, rp: real, rq: real, ip: real, iq: real)
    requires rp > 0.0 && rq > 0.0 && rq == gain * rp && u == gain * t && ip == 1.0 / rp && iq == 1.0 / rq
    ensures iq * u == ip * t
  {
    assert iq * rq == 1.0 && ip * rp == 1.0;
    assert iq * gain * rp == 1.0;
    EqualByFactor(iq * gain, ip, rp);
  }

  // ----- building one tensor

  /** The loops of classify, over a buffer of exactly one tensor. */
  method BuildTensor(iq: seq<real>, length: nat, sqrt: real -> real) returns (input: array<real>)
    requires length > 0 && IsSquareRoot(sqrt)
    ensures fresh(input) && input[..] == Tensor(iq, length, sqrt)
  {
    hide IsSquareRoot, Normalised;
    ghost var raw := RawTensor(iq, length);
    input := new real[2 * length](_ => 0.0);
    var copyLen := Copied(iq, length);
    for i := 0 to copyLen
      invariant forall j :: 0 <= j < length ==> input[j] == InPhase(iq, i, j)
      invariant forall j :: length <= j < 2 * length ==> input[j] == Quadrature(iq, i, j - length)
    {
      input[i] := iq[i * 2];
      input[length + i] := iq[i * 2 + 1];
    }
    assert input[..] == input[0..2 * length] == raw;
    NormaliseSlice(input, 0, length, sqrt);
    assert input[..] == input[0..2 * length];
  }

  /** Rescales the 2 * length floats from start on to unit mean power, in place. */
  method NormaliseSlice(input: array<real>, start: nat, length: nat, sqrt: real -> real)
    requires length > 0 && IsSquareRoot(sqrt) && start + 2 * length <= input.Length
    modifies input
    ensures input[start..start + 2 * length] == Normalised(old(input[start..start + 2 * length]), length, sqrt)
    ensures forall i :: 0 <= i < start || start + 2 * length <= i < input.Length ==> input[i] == old(input[i])
  {
    hide IsSquareRoot, RealSums.Dot;
    ghost var t := input[start..start + 2 * length];
    var power := SlicePower(input, start, 2 * length);
    power := power / length as real;
    assert power == MeanPower(t, length);
    if power > 0.0 {
      RootPositive(power, sqrt);
      var scale := 1.0 / sqrt(power);
      ScaleSlice(input, start, 2 * length, scale);
    }
  }

  method SlicePower(input: array<real>, start: nat, count: nat) returns (power: real)
    requires start + count <= input.Length
    ensures power == Dot(input[start..start + count], input[start..start + count])
  {
    hide RealSums.Dot;
    ghost var t := input[start..start + count];
    power := 0.0;
    DotStart(t, t);
    for i := start to start + count
      invariant power == Dot(t[..i - start], t[..i - start])
    {
      DotStep(t, t, i - start, input[i], input[i]);
      power := power + input[i] * input[i];
    }
  }

  method ScaleSlice(input: array<real>, start: nat, count: nat, scale: real)
    requires start + count <= input.Length
    modifies input
    ensures input[start..start + count] == Scaled(old(input[start..start + count]), scale)
    ensures forall i :: 0 <= i < start || start + count <= i < input.Length ==> input[i] == old(input[i])
  {
    ghost var t := input[start..start + count];
    for i := start to start + count
      invariant forall j :: 0 <= j < start || i <= j < input.Length ==> input[j] == old(input[j])
      invariant forall j :: start <= j < i ==> input[j] == Scaled(t, scale)[j - start]
    {
      assert t[i - start] == old(input[i]) == input[i];
      input[i] := scale * input[i];
    }
  }
}
