/** Softmax, the top class, and one forward pass for many signals (OnnxClassifier). */
module BatchInference {
  import opened Blocks
  import opened RealSums
  import opened RealFunctions
  import opened Options
  import opened TensorPacking

  // ----- the top class

  /** k is the first index at which s is largest, which is what std::max_element returns. */
  ghost predicate FirstMax(s: seq<real>, k: nat) {
    && k < |s|
    && (forall j :: 0 <= j < |s| ==> s[j] <= s[k])
    && (forall j :: 0 <= j < k ==> s[j] < s[k])
  }

  function TopOf(s: seq<real>): (k: nat)
    requires s != []
    ensures FirstMax(s, k)
  {
    var n := |s| - 1;
    if n == 0 then 0
    else
      var k := TopOf(s[..n]);
      assert s[..n][k] == s[k] && forall j :: 0 <= j < n ==> s[..n][j] == s[j];
      if s[n] > s[k] then n else k
  }

  method MaxElement(s: array<real>) returns (k: nat)
    requires s.Length > 0
    ensures k == TopOf(s[..])
  {
    k := 0;
    for i := 1 to s.Length
      invariant FirstMax(s[..i], k)
    {
      if s[i] > s[k] {
        k := i;
      }
    }
    assert s[..s.Length] == s[..];
  }

  // ----- softmax

  function Weights(logits: seq<real>, exp: real -> real): (w: seq<real>)
    requires logits != []
    ensures |w| == |logits| && forall i :: 0 <= i < |w| ==> w[i] == exp(logits[i] - logits[TopOf(logits)])
  {
    seq(|logits|, i requires 0 <= i < |logits| => exp(logits[i] - logits[TopOf(logits)]))
  }

  function Shares(w: seq<real>, total: real): (p: seq<real>)
    requires total > 0.0
    ensures |p| == |w| && forall i :: 0 <= i < |p| ==> p[i] == w[i] / total
  {
    seq(|w|, i requires 0 <= i < |w| => w[i] / total)
  }

  lemma WeightsPositive(logits: seq<real>, exp: real -> real)
    requires logits != [] && IsExponential(exp)
    ensures Sum(Weights(logits, exp)) > 0.0
    ensures forall i :: 0 <= i < |logits| ==> Weights(logits, exp)[i] > 0.0
  {
    var w := Weights(logits, exp);
    SumNonNegative(w);
    assert w[0] > 0.0;
  }

  function Softmax(logits: seq<real>, exp: real -> real): (p: seq<real>)
    requires logits != [] && IsExponential(exp)
    ensures |p| == |logits|
  {
    WeightsPositive(logits, exp);
    Shares(Weights(logits, exp), Sum(Weights(logits, exp)))
  }

  lemma ShareOrder(a: real, b: real, total: real)
    requires total > 0.0
    ensures a / total < b / total <==> a < b
  {
    assert a == (a / total) * total && b == (b / total) * total;
    if a / total < b / total {
      PositiveProduct(b / total - a / total, total, (b / total - a / total) * total);
    } else if b / total < a / total {
      PositiveProduct(a / total - b / total, total, (a / total - b / total) * total);
    }
  }

  /** The result of softmax is a probability distribution with no zero entry. */
  lemma SoftmaxIsDistribution(logits: seq<real>, exp: real -> real)
    requires logits != [] && IsExponential(exp)
    ensures Sum(Softmax(logits, exp)) == 1.0
    ensures forall i :: 0 <= i < |logits| ==> 0.0 < Softmax(logits, exp)[i] <= 1.0
  {
    hide RealSums.Sum, IsExponential;
    var w, p := Weights(logits, exp), Softmax(logits, exp);
    WeightsPositive(logits, exp);
    SharesSum(w, p, Sum(w));
    forall i | 0 <= i < |p|
      ensures 0.0 < p[i]
    {
      PositiveQuotientOf(w[i], Sum(w));
    }
    SumNonNegative(p);
  }

  lemma PositiveQuotientOf(a: real, total: real)
    requires a > 0.0 && total > 0.0
    ensures a / total > 0.0
  {
    PositiveQuotient(a, total, a / total);
  }

  lemma SharesSum(w: seq<real>, p: seq<real>, total: real)
    requires total > 0.0 && total == Sum(w) && p == Shares(w, total)
    ensures Sum(p) == 1.0
  {
    hide RealSums.Sum;
    forall i | 0 <= i < |p|
      ensures p[i] == (1.0 / total) * w[i]
    {
    }
    SumScale(p, w, 1.0 / total);
    assert (1.0 / total) * total == 1.0;
  }

  ghost predicate TurnsSumsIntoProducts(exp: real -> real) {
    forall s, t :: ProductLaw(exp, s, t)
  }

  predicate ProductLaw(exp: real -> real, s: real, t: real) {
    exp(s + t) == exp(s) * exp(t)
  }

  function Exponentials(logits: seq<real>, exp: real -> real): (e: seq<real>)
    ensures |e| == |logits| && forall i :: 0 <= i < |e| ==> e[i] == exp(logits[i])
  {
    seq(|logits|, i requires 0 <= i < |logits| => exp(logits[i]))
  }

  /** Taking the largest logit off first changes nothing: each share is its own exponential over their sum. */
  lemma SoftmaxSharesExponentials(logits: seq<real>, exp: real -> real, i: nat)
    requires IsExponential(exp) && TurnsSumsIntoProducts(exp) && i < |logits|
    ensures Softmax(logits, exp)[i] * Sum(Exponentials(logits, exp)) == exp(logits[i])
  {
    hide RealSums.Sum, IsExponential, TurnsSumsIntoProducts, Softmax, Weights, TopOf, RealSums.Times;
    var w, e, k := Weights(logits, exp), Exponentials(logits, exp), exp(logits[TopOf(logits)]);
    WeightsPositive(logits, exp);
    SoftmaxShare(logits, exp, i);
    ExponentialsScaled(logits, exp, w, e, k);
    SumScale(e, w, k);
    ShareOfTotal(w[i], Sum(w), k, Softmax(logits, exp)[i], Sum(e), e[i]);
  }

  lemma SoftmaxShare(logits: seq<real>, exp: real -> real, i: nat)
    requires IsExponential(exp) && i < |logits|
    ensures Sum(Weights(logits, exp)) > 0.0
    ensures Softmax(logits, exp)[i] == Weights(logits, exp)[i] / Sum(Weights(logits, exp))
  {
    hide RealSums.Sum, IsExponential;
    WeightsPositive(logits, exp);
  }

  lemma ExponentialsScaled(logits: seq<real>, exp: real -> real, w: seq<real>, e: seq<real>, k: real)
    requires logits != [] && TurnsSumsIntoProducts(exp)
    requires w == Weights(logits, exp) && e == Exponentials(logits, exp) && k == exp(logits[TopOf(logits)])
    ensures |w| == |e| && forall j :: 0 <= j < |e| ==> e[j] == k * w[j]
  {
    var top := logits[TopOf(logits)];
    forall j | 0 <= j < |logits|
      ensures e[j] == k * w[j]
    {
      assert ProductLaw(exp, logits[j] - top, top);
      assert logits[j] - top + top == logits[j];
    }
  }

  lemma ShareOfTotal(w: real, total: real, k: real, p: real, sum: real, e: real)
    requires total > 0.0 && p == w / total && sum == k * total && e == k * w
    ensures p * sum == e
  {
    ClearQuotient(p, w, total);
    assert p * (k * total) == k * (p * total);
  }

  /** Softmax keeps the order of the logits. */
  lemma SoftmaxKeepsOrder(logits: seq<real>, exp: real -> real, i: nat, j: nat)
    requires IsExponential(exp) && i < |logits| && j < |logits|
    ensures Softmax(logits, exp)[i] < Softmax(logits, exp)[j] <==> logits[i] < logits[j]
  {
    hide RealSums.Sum;
    var w, top := Weights(logits, exp), logits[TopOf(logits)];
    WeightsPositive(logits, exp);
    ShareOrder(w[i], w[j], Sum(w));
    ExponentialOrder(logits[i] - top, logits[j] - top, exp);
  }

  lemma ExponentialOrder(s: real, t: real, exp: real -> real)
    requires IsExponential(exp)
    ensures exp(s) < exp(t) <==> s < t
  {
  }

  /** So the class softmax puts on top is the one the model put on top, ties included. */
  lemma TopClassIsTopLogit(logits: seq<real>, exp: real -> real)
    requires logits != [] && IsExponential(exp)
    ensures TopOf(Softmax(logits, exp)) == TopOf(logits)
  {
    hide Softmax, IsExponential;
    var p, k, top := Softmax(logits, exp), TopOf(Softmax(logits, exp)), TopOf(logits);
    SoftmaxKeepsOrder(logits, exp, k, top);
    SoftmaxKeepsOrder(logits, exp, top, k);
  }

  /** The confidence of the top class is at least one over the number of classes. */
  lemma {:induction false} ConfidenceFloor(logits: seq<real>, exp: real -> real)
    requires logits != [] && IsExponential(exp)
    ensures Softmax(logits, exp)[TopOf(logits)] * (|logits| as real) >= 1.0
  {
    hide *;
    SoftmaxIsDistribution(logits, exp);
    TopClassIsTopLogit(logits, exp);
    LargestShare(Softmax(logits, exp));
  }

  lemma LargestShare(p: seq<real>)
    requires p != [] && Sum(p) == 1.0
    ensures p[TopOf(p)] * (|p| as real) >= 1.0
  {
    hide RealSums.Sum;
    SumBelow(p, p[TopOf(p)]);
  }

  lemma {:induction false} SumBelow(a: seq<real>, v: real)
    requires forall i :: 0 <= i < |a| ==> a[i] <= v
    ensures Sum(a) <= v * (|a| as real)
  {
    if a == [] {
    } else {
      var n := |a| - 1;
      SumBelow(a[..n], v);
      assert v * (|a| as real) == v * (n as real) + v;
    }
  }

  method SoftmaxInPlace(v: array<real>, exp: real -> real)
    requires v.Length > 0 && IsExponential(exp)
    modifies v
    ensures v[..] == Softmax(old(v[..]), exp)
  {
    hide RealSums.Sum, IsExponential;
    ghost var logits := v[..];
    ghost var w := Weights(logits, exp);
    WeightsPositive(logits, exp);
    var top := MaxElement(v);
    var mx := v[top];
    var sum := Exponentiate(v, mx, exp, w);
    DivideAll(v, sum, w);
  }

  method Exponentiate(v: array<real>, mx: real, exp: real -> real, ghost w: seq<real>) returns (sum: real)
    requires |w| == v.Length && forall i :: 0 <= i < |w| ==> w[i] == exp(v[i] - mx)
    modifies v
    ensures v[..] == w && sum == Sum(w)
  {
    hide RealSums.Sum;
    sum := 0.0;
    SumEmpty();
    for i := 0 to v.Length
      invariant sum == Sum(w[..i]) && v[..i] == w[..i]
      invariant forall j :: i <= j < v.Length ==> v[j] == old(v[j])
    {
      v[i] := exp(v[i] - mx);
      SumStep(w, i);
      sum := sum + v[i];
    }
    SumAll(w);
  }

  method DivideAll(v: array<real>, total: real, ghost w: seq<real>)
    requires v[..] == w && total > 0.0
    modifies v
    ensures v[..] == Shares(w, total)
  {
    for i := 0 to v.Length
      invariant forall j :: 0 <= j < i ==> v[j] == Shares(w, total)[j]
      invariant forall j :: i <= j < v.Length ==> v[j] == w[j]
    {
      v[i] := v[i] / total;
    }
  }

  // ----- the model and its answers

  datatype ClassLabel = Unlabelled | Named(name: string) | Numbered(index: nat)

  datatype OnnxResult = OnnxResult(valid: bool, modulation: ClassLabel, confidence: real)

  const INVALID := OnnxResult(false, Unlabelled, 0.0)

  /** What a forward pass returns: the rank of its output, its classes, and the logits row by row. */
  datatype Output = Output(rank: nat, classes: nat, logits: seq<real>)

  /** A forward pass on a flat buffer holding so many tensors; None when the runtime throws. */
  type Session = (seq<real>, nat) -> Option<Output>

  /** Outputs hold what their shape says, for at least one class. */
  ghost predicate WellShaped(session: Session) {
    forall input, b :: Answered(session(input, b)) ==>
      var out := session(input, b).value;
      out.classes > 0 && |out.logits| == StartOf(b, out.classes)
  }

  predicate Answered(answer: Option<Output>) {
    answer.Some? && answer.value.rank >= 2
  }

  function LabelOf(top: nat, names: seq<string>): ClassLabel {
    if top < |names| then Named(names[top]) else Numbered(top)
  }

  function ResultOf(logits: seq<real>, exp: real -> real, names: seq<string>): OnnxResult
    requires logits != [] && IsExponential(exp)
  {
    OnnxResult(true, LabelOf(TopOf(logits), names), Softmax(logits, exp)[TopOf(logits)])
  }

  /** The label is the name of the first of the largest logits, or its number if it has no name. */
  lemma LabelOfTop(logits: seq<real>, exp: real -> real, names: seq<string>, i: nat)
    requires IsExponential(exp) && i < |logits|
    requires forall j :: 0 <= j < |logits| ==> logits[j] <= logits[i]
    requires forall j :: 0 <= j < i ==> logits[j] < logits[i]
    ensures ResultOf(logits, exp, names).valid
    ensures ResultOf(logits, exp, names).modulation == if i < |names| then Named(names[i]) else Numbered(i)
  {
    hide IsExponential, Softmax;
    var k := TopOf(logits);
    assert logits[k] == logits[i];
  }

  /** The result for row b of a forward pass over batch rows. */
  function RowResult(answer: Option<Output>, batch: nat, b: nat, exp: real -> real, names: seq<string>): OnnxResult
    requires IsExponential(exp) && b < batch
    requires Answered(answer) ==>
               answer.value.classes > 0 && |answer.value.logits| == StartOf(batch, answer.value.classes)
  {
    if Answered(answer) then
      StartsOrdered(b, batch, answer.value.classes);
      ResultOf(Row(answer.value.logits, b, answer.value.classes), exp, names)
    else INVALID
  }

  method ReadRow(logits: seq<real>, exp: real -> real, names: seq<string>) returns (r: OnnxResult)
    requires logits != [] && IsExponential(exp)
    ensures r == ResultOf(logits, exp, names)
  {
    hide IsExponential, RealSums.Sum, Softmax;
    var probs := new real[|logits|](i requires 0 <= i < |logits| => logits[i]);
    assert probs[..] == logits;
    SoftmaxInPlace(probs, exp);
    TopClassIsTopLogit(logits, exp);
    var top := MaxElement(probs);
    r := OnnxResult(true, if top < |names| then Named(names[top]) else Numbered(top), probs[top]);
  }

  method Classify(loaded: bool, session: Session, names: seq<string>, iq: seq<real>, length: nat,
                  sqrt: real -> real, exp: real -> real)
    returns (out: OnnxResult)
    requires length > 0 && IsSquareRoot(sqrt) && IsExponential(exp) && WellShaped(session)
    ensures out == if loaded then RowResult(session(Tensor(iq, length, sqrt), 1), 1, 0, exp, names) else INVALID
  {
    hide IsSquareRoot, IsExponential, Tensor, ResultOf;
    if !loaded {
      return INVALID;
    }
    var input := BuildTensor(iq, length, sqrt);
    var answer := session(input[..], 1);
    if !Answered(answer) {
      return INVALID;
    }
    var classes := answer.value.classes;
    assert StartOf(1, classes) == classes;
    out := ReadRow(answer.value.logits[..classes], exp, names);
  }

  // ----- a batch

  function Tensors(signals: seq<seq<real>>, length: nat, sqrt: real -> real): (rows: seq<seq<real>>)
    requires length > 0 && IsSquareRoot(sqrt)
    ensures |rows| == |signals| && Rectangular(rows, 2 * length)
    ensures forall b :: 0 <= b < |rows| ==> rows[b] == Tensor(signals[b], length, sqrt)
  {
    seq(|signals|, b requires 0 <= b < |signals| => Tensor(signals[b], length, sqrt))
  }

  /** Writes one signal's samples and rescales them, in the row of the flat buffer that is its own. */
  method PackSignal(input: array<real>, start: nat, iq: seq<real>, length: nat, sqrt: real -> real)
    requires length > 0 && IsSquareRoot(sqrt) && start + 2 * length <= input.Length
    requires forall i :: start <= i < start + 2 * length ==> input[i] == 0.0
    modifies input
    ensures input[start..start + 2 * length] == Tensor(iq, length, sqrt)
    ensures forall i :: 0 <= i < start || start + 2 * length <= i < input.Length ==> input[i] == old(input[i])
  {
    hide IsSquareRoot, Normalised;
    var dstQ := start + length;
    var copy := Copied(iq, length);
    for i := 0 to copy
      invariant forall j :: 0 <= j < start || start + 2 * length <= j < input.Length ==> input[j] == old(input[j])
      invariant forall j :: start <= j < start + length ==> input[j] == InPhase(iq, i, j - start)
      invariant forall j :: dstQ <= j < dstQ + length ==> input[j] == Quadrature(iq, i, j - dstQ)
    {
      input[start + i] := iq[i * 2];
      input[dstQ + i] := iq[i * 2 + 1];
    }
    assert input[start..start + 2 * length] == RawTensor(iq, length);
    NormaliseSlice(input, start, length, sqrt);
  }

  lemma JoinedNothing(rows: seq<seq<real>>)
    requires rows == []
    ensures Joined(rows) == []
  {
  }

  /** The packing loop: afterwards the buffer is the signals' tensors, one after the other. */
  method PackSignals(signals: seq<seq<real>>, length: nat, sqrt: real -> real) returns (input: array<real>)
    requires length > 0 && IsSquareRoot(sqrt)
    ensures input[..] == Joined(Tensors(signals, length, sqrt))
  {
    hide IsSquareRoot, Tensor, Tensors, Joined;
    var batch := |signals|;
    StartIsProduct(batch, 2 * length);
    input := new real[batch * (2 * length)](_ => 0.0);
    ghost var rows := Tensors(signals, length, sqrt);
    JoinedNothing(rows[..0]);
    for b := 0 to batch
      invariant StartOf(b, 2 * length) <= input.Length
      invariant input[..StartOf(b, 2 * length)] == Joined(rows[..b])
      invariant forall i :: StartOf(b, 2 * length) <= i < input.Length ==> input[i] == 0.0
    {
      StartIsProduct(b, 2 * length);
      StartsOrdered(b, batch, 2 * length);
      StartsOrdered(b + 1, batch, 2 * length);
      var start := b * (2 * length);
      ghost var before := input[..start];
      PackSignal(input, start, signals[b], length, sqrt);
      JoinedStep(rows, b);
      assert input[..start] == before;
      assert input[..start + 2 * length] == input[..start] + input[start..start + 2 * length];
    }
    assert rows[..batch] == rows && input[..input.Length] == input[..];
  }

  /**
   The answers a batch gives its signals. The configured maxBatch is read nowhere: every signal is
   answered, however many there are.
   */
  method ClassifyBatch(loaded: bool, session: Session, names: seq<string>, signals: seq<seq<real>>, length: nat,
                       maxBatch: nat, sqrt: real -> real, exp: real -> real)
    returns (results: array<OnnxResult>)
    requires length > 0 && IsSquareRoot(sqrt) && IsExponential(exp) && WellShaped(session)
    ensures results.Length == |signals|
    ensures forall b :: 0 <= b < |signals| ==> (results[b] == if loaded then
              RowResult(session(Joined(Tensors(signals, length, sqrt)), |signals|), |signals|, b, exp, names)
            else INVALID)
  {
    hide IsSquareRoot, IsExponential, Tensor, ResultOf;
    results := new OnnxResult[|signals|](_ => INVALID);
    if !loaded || |signals| == 0 {
      return;
    }
    var batch := |signals|;
    var input := PackSignals(signals, length, sqrt);
    var answer := session(input[..], batch);
    if !Answered(answer) {
      return;
    }
    var classes, logits := answer.value.classes, answer.value.logits;
    for b := 0 to batch
      invariant forall i :: 0 <= i < b ==> results[i] == RowResult(answer, batch, i, exp, names)
    {
      StartIsProduct(b, classes);
      StartsOrdered(b, batch, classes);
      results[b] := ReadRow(logits[b * classes..b * classes + classes], exp, names);
    }
  }

  // ----- the batch refines the single call

  function Answers(model: seq<real> -> seq<real>, rows: seq<seq<real>>): (out: seq<seq<real>>)
    ensures |out| == |rows| && forall b :: 0 <= b < |out| ==> out[b] == model(rows[b])
  {
    seq(|rows|, b requires 0 <= b < |rows| => model(rows[b]))
  }

  /** The session answers each row by itself, whatever the other rows are. */
  ghost predicate RowWise(session: Session, model: seq<real> -> seq<real>, width: nat, classes: nat) {
    && classes > 0
    && (forall t: seq<real> :: |t| == width ==> |model(t)| == classes)
    && (forall rows :: rows != [] && Rectangular(rows, width) ==>
          session(Joined(rows), |rows|) == Some(Output(2, classes, Joined(Answers(model, rows)))))
  }

  lemma RowWiseAnswer(session: Session, model: seq<real> -> seq<real>, width: nat, classes: nat,
                      rows: seq<seq<real>>, b: nat)
    requires RowWise(session, model, width, classes) && Rectangular(rows, width) && b < |rows|
    ensures Answered(session(Joined(rows), |rows|))
    ensures var out := session(Joined(rows), |rows|).value;
            && out.classes == classes && |out.logits| == StartOf(|rows|, classes)
            && StartOf(b, classes) + classes <= |out.logits|
            && Row(out.logits, b, classes) == model(rows[b])
  {
    var out := Answers(model, rows);
    assert Rectangular(out, classes);
    JoinedLength(out, classes);
    JoinedRow(out, classes, b);
  }

  /** For a row-wise model, the b-th result of a batch is the result its signal gets alone. */
  lemma BatchRefinesSingle(session: Session, model: seq<real> -> seq<real>, classes: nat, names: seq<string>,
                           signals: seq<seq<real>>, b: nat, length: nat, sqrt: real -> real, exp: real -> real)
    requires length > 0 && IsSquareRoot(sqrt) && IsExponential(exp) && b < |signals|
    requires WellShaped(session) && RowWise(session, model, 2 * length, classes)
    ensures RowResult(session(Joined(Tensors(signals, length, sqrt)), |signals|), |signals|, b, exp, names)
            == RowResult(session(Tensor(signals[b], length, sqrt), 1), 1, 0, exp, names)
    ensures RowResult(session(Tensor(signals[b], length, sqrt), 1), 1, 0, exp, names)
            == ResultOf(model(Tensor(signals[b], length, sqrt)), exp, names)
  {
    hide IsSquareRoot, IsExponential, Tensor, ResultOf, RowWise;
    var rows, alone := Tensors(signals, length, sqrt), [Tensor(signals[b], length, sqrt)];
    RowWiseAnswer(session, model, 2 * length, classes, rows, b);
    RowWiseAnswer(session, model, 2 * length, classes, alone, 0);
    assert Joined(alone) == alone[0] by {
      assert alone[..0] == [];
    }
  }
}
