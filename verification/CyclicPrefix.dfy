/**
 The cyclic-prefix correlator (detectOfdm), over exact reals. Scores are kept squared: a score is
 |corr| / sqrt(pa * pb), its square is |corr|^2 / (pa * pb), and the two order candidates alike.
 */
module CyclicPrefix {
  import opened Blocks
  import opened RealSums
  import opened ComplexNumbers

  /** A candidate whose prefix energy is below this is skipped (1e-12). */
  const SILENCE: real := 1.0 / 1000000000000.0
  /** The square of the detection threshold 0.7. */
  const THRESHOLD: real := 0.49

  const FFT_SIZES: seq<nat> := [64, 128, 256, 512, 1024, 2048]
  /** The prefix is 1/4, 1/8 or 1/16 of the FFT size; each size divides exactly. */
  const CP_DIVISORS: seq<nat> := [4, 8, 16]
  const CANDIDATES: nat := 18

  function FftSize(c: nat): (r: nat)
    requires c < CANDIDATES
    ensures 64 <= r <= 2048
  {
    FFT_SIZES[c / 3]
  }

  function CpRatio(c: nat): real
    requires c < CANDIDATES
  {
    1.0 / CP_DIVISORS[c % 3] as real
  }

  function PrefixLength(c: nat): (r: nat)
    requires c < CANDIDATES
    ensures 4 <= r <= 512
  {
    FFT_SIZES[c / 3] / CP_DIVISORS[c % 3]
  }

  function SymbolLength(c: nat): (r: nat)
    requires c < CANDIDATES
    ensures r == FftSize(c) + PrefixLength(c)
  {
    FftSize(c) + PrefixLength(c)
  }

  /** At least four whole symbols must fit. */
  predicate Admissible(x: seq<Complex>, c: nat)
    requires c < CANDIDATES
  {
    SymbolLength(c) * 4 <= |x|
  }

  /** The candidates are exactly the six FFT sizes with prefixes of a quarter, an eighth and a sixteenth. */
  lemma CandidateTable(n: nat, d: nat) returns (c: nat)
    requires n in {64, 128, 256, 512, 1024, 2048} && d in {4, 8, 16}
    ensures c < CANDIDATES && FftSize(c) == n && PrefixLength(c) * d == n && CpRatio(c) == 1.0 / d as real
  {
    var row := if n == 64 then 0 else if n == 128 then 1 else if n == 256 then 2 else if n == 512 then 3
    else if n == 1024 then 4 else 5;
    var column := if d == 4 then 0 else if d == 8 then 1 else 2;
    c := 3 * row + column;
    assert c / 3 == row && c % 3 == column;
  }

  /** No two candidates are alike; they are tried by ascending FFT size, the longest prefix first. */
  lemma CandidateOrder(c: nat, c': nat)
    requires c < c' < CANDIDATES
    ensures FftSize(c) < FftSize(c') || (FftSize(c) == FftSize(c') && PrefixLength(c) > PrefixLength(c'))
  {
    assert c / 3 < c' / 3 || (c / 3 == c' / 3 && c % 3 < c' % 3);
  }

  // ----- the prefix positions of the first m symbols

  function Run(start: nat, n: nat): (r: seq<nat>)
    ensures |r| == n && forall j :: 0 <= j < n ==> r[j] == start + j
  {
    seq(n, j requires 0 <= j < n => start + j)
  }

  /** How many whole symbols a block of the given length holds. */
  function SymbolCount(total: nat, sym: nat): (m: nat)
    requires sym > 0
    ensures StartOf(m, sym) <= total < StartOf(m, sym) + sym
    decreases total
  {
    if total < sym then 0 else 1 + SymbolCount(total - sym, sym)
  }

  function Positions(sym: nat, ncp: nat, m: nat): seq<nat> {
    if m == 0 then [] else Positions(sym, ncp, m - 1) + Run(StartOf(m - 1, sym), ncp)
  }

  /** Every prefix sample and its partner nfft samples later lie inside the block. */
  ghost predicate InRange(p: seq<nat>, nfft: nat, total: nat) {
    forall j :: 0 <= j < |p| ==> p[j] + nfft < total
  }

  lemma {:induction false} PositionsInRange(sym: nat, ncp: nat, nfft: nat, m: nat, total: nat)
    requires sym == nfft + ncp && StartOf(m, sym) <= total
    ensures InRange(Positions(sym, ncp, m), nfft, total)
  {
    if m == 0 {
    } else {
      PositionsInRange(sym, ncp, nfft, m - 1, total);
    }
  }

  function Picked(x: seq<Complex>, p: seq<nat>, shift: nat): (r: seq<Complex>)
    requires InRange(p, shift, |x|)
    ensures |r| == |p| && forall j :: 0 <= j < |r| ==> r[j] == x[p[j] + shift]
  {
    seq(|p|, j requires 0 <= j < |p| => x[p[j] + shift])
  }

  lemma SmallerShift(p: seq<nat>, nfft: nat, total: nat)
    requires InRange(p, nfft, total)
    ensures InRange(p, 0, total)
  {
  }

  lemma SymbolPositionsInRange(x: seq<Complex>, c: nat)
    requires c < CANDIDATES
    ensures InRange(SymbolPositions(x, c), 0, |x|)
    ensures InRange(SymbolPositions(x, c), FftSize(c), |x|)
  {
    hide FftSize, PrefixLength, Positions, InRange;
    var m := SymbolCount(|x|, SymbolLength(c));
    PositionsInRange(SymbolLength(c), PrefixLength(c), FftSize(c), m, |x|);
    SmallerShift(Positions(SymbolLength(c), PrefixLength(c), m), FftSize(c), |x|);
  }

  /** The prefix samples of every whole symbol, in order. */
  function Heads(x: seq<Complex>, c: nat): (r: seq<Complex>)
    requires c < CANDIDATES
  {
    SymbolPositionsInRange(x, c);
    Picked(x, SymbolPositions(x, c), 0)
  }

  /** The samples one FFT length after each prefix sample. */
  function Tails(x: seq<Complex>, c: nat): (r: seq<Complex>)
    requires c < CANDIDATES
    ensures |r| == |Heads(x, c)|
  {
    SymbolPositionsInRange(x, c);
    Picked(x, SymbolPositions(x, c), FftSize(c))
  }

  function SymbolPositions(x: seq<Complex>, c: nat): seq<nat>
    requires c < CANDIDATES
  {
    Positions(SymbolLength(c), PrefixLength(c), SymbolCount(|x|, SymbolLength(c)))
  }

  predicate Audible(x: seq<Complex>, c: nat)
    requires c < CANDIDATES
  {
    Energy(Heads(x, c)) >= SILENCE && Energy(Tails(x, c)) >= SILENCE
  }

  /** The squared correlation score; a skipped candidate can never win, which is what 0 does too. */
  function ScoreOf(x: seq<Complex>, c: nat): real
    requires c < CANDIDATES
  {
    if Admissible(x, c) && Audible(x, c) then
      SquaredScore(Correlation(Heads(x, c), Tails(x, c)).Norm(), Energy(Heads(x, c)), Energy(Tails(x, c)))
    else
      0.0
  }

  function SquaredScore(corr: real, pa: real, pb: real): real
    requires pa >= SILENCE && pb >= SILENCE
  {
    PositiveProduct(pa, pb, pa * pb);
    corr / (pa * pb)
  }

  // ----- the correlator loops

  lemma PickedAppend(x: seq<Complex>, p: seq<nat>, z: nat, shift: nat)
    requires InRange(p + [z], shift, |x|)
    ensures InRange(p, shift, |x|) && z + shift < |x|
    ensures Picked(x, p + [z], shift) == Picked(x, p, shift) + [x[z + shift]]
  {
    assert (p + [z])[|p|] == z;
    forall j | 0 <= j < |p|
      ensures p[j] + shift < |x|
    {
      assert (p + [z])[j] == p[j];
    }
  }

  lemma SumsAppend(a: seq<Complex>, b: seq<Complex>, u: Complex, v: Complex)
    requires |a| == |b|
    ensures Correlation(a + [u], b + [v]) == Correlation(a, b).Plus(u.Times(v.Conj()))
    ensures Energy(a + [u]) == Energy(a) + u.Norm()
    ensures Energy(b + [v]) == Energy(b) + v.Norm()
  {
    hide Complex.Norm, Complex.Times;
    assert CrossTerms(a + [u], b + [v])[..|a|] == CrossTerms(a, b);
    assert Norms(a + [u])[..|a|] == Norms(a);
    assert Norms(b + [v])[..|b|] == Norms(b);
  }

  lemma RunAppend(start: nat, k: nat)
    ensures Run(start, k + 1) == Run(start, k) + [start + k]
  {
  }

  /** The three sums hold the prefix positions p, paired with the samples nfft later. */
  ghost predicate SumsOver(x: seq<Complex>, p: seq<nat>, nfft: nat, corr: Complex, pa: real, pb: real)
  {
    && InRange(p, 0, |x|) && InRange(p, nfft, |x|)
    && corr == Correlation(Picked(x, p, 0), Picked(x, p, nfft))
    && pa == Energy(Picked(x, p, 0))
    && pb == Energy(Picked(x, p, nfft))
  }

  lemma SumsOverNothing(x: seq<Complex>, nfft: nat)
    ensures SumsOver(x, [], nfft, CZERO, 0.0, 0.0)
  {
    assert Picked(x, [], 0) == [] && Picked(x, [], nfft) == [];
    assert CrossTerms([], []) == [] && Norms([]) == [];
  }

  lemma SumsOverAppend(x: seq<Complex>, p: seq<nat>, nfft: nat, corr: Complex, pa: real, pb: real, z: nat)
    requires SumsOver(x, p, nfft, corr, pa, pb) && z + nfft < |x|
    ensures SumsOver(x, p + [z], nfft, corr.Plus(x[z].Times(x[z + nfft].Conj())),
                     pa + x[z].Norm(), pb + x[z + nfft].Norm())
  {
    hide Complex.Norm, Complex.Times, Complex.Plus, Correlation, Energy, Picked;
    assert InRange(p + [z], 0, |x|) && InRange(p + [z], nfft, |x|);
    PickedAppend(x, p, z, 0);
    PickedAppend(x, p, z, nfft);
    SumsAppend(Picked(x, p, 0), Picked(x, p, nfft), x[z], x[z + nfft]);
  }

  lemma SymbolCountIsUnique(m: nat, sym: nat, total: nat)
    requires sym > 0 && StartOf(m, sym) <= total < StartOf(m, sym) + sym
    ensures m == SymbolCount(total, sym)
  {
    var q := SymbolCount(total, sym);
    if m < q {
      StartsOrdered(m, q, sym);
    } else if q < m {
      StartsOrdered(q, m, sym);
    }
  }

  method CorrelatePrefixes(x: seq<Complex>, c: nat) returns (corr: Complex, pa: real, pb: real)
    requires c < CANDIDATES
    ensures corr == Correlation(Heads(x, c), Tails(x, c))
    ensures pa == Energy(Heads(x, c)) && pb == Energy(Tails(x, c))
  {
    hide Complex.Norm, Complex.Times, Complex.Plus, Correlation, Energy, SumsOver, InRange, FftSize, PrefixLength;
    var nfft, ncp := FftSize(c), PrefixLength(c);
    var sym := nfft + ncp;
    corr, pa, pb := CZERO, 0.0, 0.0;
    var n := 0;
    ghost var m := 0;
    SumsOverNothing(x, nfft);
    while n + sym <= |x|
      invariant n == StartOf(m, sym) && n <= |x|
      invariant SumsOver(x, Positions(sym, ncp, m), nfft, corr, pa, pb)
    {
      ghost var before := Positions(sym, ncp, m);
      assert before + Run(n, 0) == before;
      for k := 0 to ncp
        invariant SumsOver(x, before + Run(n, k), nfft, corr, pa, pb)
      {
        var a, b := x[n + k], x[n + k + nfft];
        SumsOverAppend(x, before + Run(n, k), nfft, corr, pa, pb, n + k);
        RunAppend(n, k);
        assert before + Run(n, k) + [n + k] == before + Run(n, k + 1);
        corr := corr.Plus(a.Times(b.Conj()));
        pa := pa + a.Norm();
        pb := pb + b.Norm();
      }
      n := n + sym;
      m := m + 1;
    }
    SymbolCountIsUnique(m, sym, |x|);
    SumsAreHeadsAndTails(x, c, corr, pa, pb);
  }

  lemma SumsAreHeadsAndTails(x: seq<Complex>, c: nat, corr: Complex, pa: real, pb: real)
    requires c < CANDIDATES && SumsOver(x, SymbolPositions(x, c), FftSize(c), corr, pa, pb)
    ensures corr == Correlation(Heads(x, c), Tails(x, c))
    ensures pa == Energy(Heads(x, c)) && pb == Energy(Tails(x, c))
  {
    hide Correlation, Energy, Positions, FftSize, PrefixLength;
  }

  /** c is the first candidate, in scan order, whose score no candidate exceeds. */
  ghost predicate FirstBest(x: seq<Complex>, c: nat, limit: nat)
    requires limit <= CANDIDATES
  {
    && c < limit
    && (forall d: nat :: d < limit ==> ScoreOf(x, d) <= ScoreOf(x, c))
    && (forall d: nat :: d < c ==> ScoreOf(x, d) < ScoreOf(x, c))
  }

  /** What the scan holds after looking at the candidates below limit. */
  ghost predicate Scanned(x: seq<Complex>, limit: nat, best: real, fft: nat, ratio: real, fftIn: nat, ratioIn: real)
    requires limit <= CANDIDATES
  {
    if best == 0.0 then
      (forall d: nat :: d < limit ==> ScoreOf(x, d) <= 0.0) && fft == fftIn && ratio == ratioIn
    else
      best > 0.0 &&
      exists c: nat :: FirstBest(x, c, limit) && best == ScoreOf(x, c) && fft == FftSize(c) && ratio == CpRatio(c)
  }

  lemma ScanKeeps(x: seq<Complex>, c: nat, best: real, fft: nat, ratio: real, fftIn: nat, ratioIn: real)
    requires c < CANDIDATES && Scanned(x, c, best, fft, ratio, fftIn, ratioIn) && ScoreOf(x, c) <= best
    ensures Scanned(x, c + 1, best, fft, ratio, fftIn, ratioIn)
  {
    hide ScoreOf, FftSize, CpRatio;
    if best != 0.0 {
      var b: nat :| FirstBest(x, b, c) && best == ScoreOf(x, b) && fft == FftSize(b) && ratio == CpRatio(b);
      assert FirstBest(x, b, c + 1);
    }
  }

  lemma ScanImproves(x: seq<Complex>, c: nat, best: real, fft: nat, ratio: real, fftIn: nat, ratioIn: real)
    requires c < CANDIDATES && Scanned(x, c, best, fft, ratio, fftIn, ratioIn) && ScoreOf(x, c) > best
    ensures Scanned(x, c + 1, ScoreOf(x, c), FftSize(c), CpRatio(c), fftIn, ratioIn)
  {
    hide ScoreOf, FftSize, CpRatio;
    assert forall d: nat :: d < c ==> ScoreOf(x, d) <= best;
    assert FirstBest(x, c, c + 1);
  }

  method DetectOfdm(x: seq<Complex>, fftIn: nat, ratioIn: real) returns (found: bool, fft: nat, ratio: real)
    ensures found <==> exists c: nat :: c < CANDIDATES && ScoreOf(x, c) > 0.7 * 0.7
    ensures found ==> exists c: nat :: FirstBest(x, c, CANDIDATES) && fft == FftSize(c) && ratio == CpRatio(c)
    ensures (exists c: nat :: c < CANDIDATES && ScoreOf(x, c) > 0.0) ==>
              exists c: nat :: FirstBest(x, c, CANDIDATES) && fft == FftSize(c) && ratio == CpRatio(c)
    ensures (forall c: nat :: c < CANDIDATES ==> ScoreOf(x, c) <= 0.0) ==> fft == fftIn && ratio == ratioIn
  {
    hide ScoreOf, FftSize, CpRatio, Scanned;
    var best := 0.0;
    found, fft, ratio := false, fftIn, ratioIn;
    NothingScanned(x, fft, ratio);
    for i := 0 to 6
      invariant Scanned(x, 3 * i, best, fft, ratio, fftIn, ratioIn)
    {
      for j := 0 to 3
        invariant Scanned(x, 3 * i + j, best, fft, ratio, fftIn, ratioIn)
      {
        best, fft, ratio := TryCandidate(x, 3 * i + j, best, fft, ratio, fftIn, ratioIn);
      }
    }
    WhatTheScanFound(x, best, fft, ratio, fftIn, ratioIn);
    if best > THRESHOLD {
      found := true;
    }
  }

  lemma NothingScanned(x: seq<Complex>, fft: nat, ratio: real)
    ensures Scanned(x, 0, 0.0, fft, ratio, fft, ratio)
  {
  }

  lemma WhatTheScanFound(x: seq<Complex>, best: real, fft: nat, ratio: real, fftIn: nat, ratioIn: real)
    requires Scanned(x, CANDIDATES, best, fft, ratio, fftIn, ratioIn)
    ensures best > THRESHOLD <==> exists c: nat :: c < CANDIDATES && ScoreOf(x, c) > THRESHOLD
    ensures best > 0.0 ==> exists c: nat :: FirstBest(x, c, CANDIDATES) && fft == FftSize(c) && ratio == CpRatio(c)
    ensures best > 0.0 <==> exists c: nat :: c < CANDIDATES && ScoreOf(x, c) > 0.0
    ensures best <= 0.0 ==> fft == fftIn && ratio == ratioIn
  {
    hide ScoreOf, FftSize, CpRatio;
  }

  /** One body of the scan: score the candidate and keep it when strictly better. */
  method TryCandidate(x: seq<Complex>, c: nat, best: real, fft: nat, ratio: real, ghost fftIn: nat, ghost ratioIn: real)
    returns (best': real, fft': nat, ratio': real)
    requires c < CANDIDATES && Scanned(x, c, best, fft, ratio, fftIn, ratioIn)
    ensures Scanned(x, c + 1, best', fft', ratio', fftIn, ratioIn)
  {
    hide Heads, Tails, Energy, Correlation, Complex.Norm, Scanned;
    best', fft', ratio' := best, fft, ratio;
    var nfft, ncp := FftSize(c), PrefixLength(c);
    var sym := nfft + ncp;
    ScanBestNonNegative(x, c, best, fft, ratio, fftIn, ratioIn);
    if sym * 4 > |x| {
      ScanKeeps(x, c, best, fft, ratio, fftIn, ratioIn);
      return;
    }
    var corr, pa, pb := CorrelatePrefixes(x, c);
    if pa < SILENCE || pb < SILENCE {
      ScanKeeps(x, c, best, fft, ratio, fftIn, ratioIn);
      return;
    }
    var score := SquaredScore(corr.Norm(), pa, pb);
    assert score == ScoreOf(x, c);
    if score > best {
      ScanImproves(x, c, best, fft, ratio, fftIn, ratioIn);
      best', fft', ratio' := score, nfft, CpRatio(c);
    } else {
      ScanKeeps(x, c, best, fft, ratio, fftIn, ratioIn);
    }
  }

  lemma ScanBestNonNegative(x: seq<Complex>, c: nat, best: real, fft: nat, ratio: real, fftIn: nat, ratioIn: real)
    requires c <= CANDIDATES && Scanned(x, c, best, fft, ratio, fftIn, ratioIn)
    ensures best >= 0.0
  {
  }

  // ----- what the score means

  lemma ScoreBound(corr: real, pa: real, pb: real)
    requires pa >= SILENCE && pb >= SILENCE && 0.0 <= corr <= pa * pb
    ensures 0.0 <= SquaredScore(corr, pa, pb) <= 1.0
  {
    PositiveProduct(pa, pb, pa * pb);
    QuotientInUnit(corr, pa * pb);
  }

  /** By Cauchy-Schwarz no candidate's score exceeds that of a perfect prefix. */
  lemma ScoreInUnitInterval(x: seq<Complex>, c: nat)
    requires c < CANDIDATES
    ensures 0.0 <= ScoreOf(x, c) <= 1.0
  {
    hide Heads, Tails, Energy, Correlation, Complex.Norm, SquaredScore, FftSize, PrefixLength;
    if Admissible(x, c) && Audible(x, c) {
      var a, b := Heads(x, c), Tails(x, c);
      ComplexCauchySchwarz(a, b);
      NormNonNegative(Correlation(a, b));
      ScoreBound(Correlation(a, b).Norm(), Energy(a), Energy(b));
    }
  }

  /** A candidate is good enough exactly if |corr|^2 exceeds 0.49 of the product of both energies. */
  lemma GoodEnough(x: seq<Complex>, c: nat)
    requires c < CANDIDATES
    ensures var a, b := Heads(x, c), Tails(x, c);
            ScoreOf(x, c) > 0.7 * 0.7 <==>
            && 4 * (FftSize(c) + PrefixLength(c)) <= |x|
            && Energy(a) >= SILENCE && Energy(b) >= SILENCE
            && 100.0 * Correlation(a, b).Norm() > 49.0 * (Energy(a) * Energy(b))
  {
    hide Heads, Tails, Energy, Correlation, Complex.Norm, SquaredScore, FftSize, PrefixLength;
    if Admissible(x, c) && Audible(x, c) {
      ScoreAboveThreshold(Correlation(Heads(x, c), Tails(x, c)).Norm(), Energy(Heads(x, c)), Energy(Tails(x, c)));
    }
  }

  lemma ScoreAboveThreshold(corr: real, pa: real, pb: real)
    requires pa >= SILENCE && pb >= SILENCE
    ensures SquaredScore(corr, pa, pb) > 0.7 * 0.7 <==> 100.0 * corr > 49.0 * (pa * pb)
  {
    var w, q := pa * pb, SquaredScore(corr, pa, pb);
    PositiveProduct(pa, pb, w);
    ClearQuotient(q, corr, w);
    if q > 0.49 {
      PositiveProduct(q - 0.49, w, corr - 0.49 * w);
    } else {
      ProductOfOrdered(0.0, 0.49 - q, 0.0, w);
      assert (0.49 - q) * w == 0.49 * w - corr;
    }
  }

  lemma SelfTerm(z: Complex)
    ensures z.Times(z.Conj()) == Complex(z.Norm(), 0.0)
  {
  }

  lemma SelfCorrelation(a: seq<Complex>)
    ensures Correlation(a, a) == Complex(Energy(a), 0.0)
  {
    hide Complex.Norm, Complex.Times;
    var zeros := seq(|a|, i => 0.0);
    forall i | 0 <= i < |a|
      ensures CrossTerms(a, a)[i] == Complex(Norms(a)[i], zeros[i])
    {
      SelfTerm(a[i]);
    }
    ComplexSumParts(CrossTerms(a, a), Norms(a), zeros);
    SumConstant(zeros, 0.0);
  }

  lemma PerfectScore(e: real)
    requires e >= SILENCE
    ensures SquaredScore(Complex(e, 0.0).Norm(), e, e) == 1.0
  {
    PositiveProduct(e, e, e * e);
    assert Complex(e, 0.0).Norm() == e * e;
  }

  /** Symbol m starts with a copy of the samples one FFT length later. */
  predicate SymbolRepeats(x: seq<Complex>, c: nat, m: nat)
    requires c < CANDIDATES && StartOf(m, SymbolLength(c)) + SymbolLength(c) <= |x|
  {
    var start := StartOf(m, SymbolLength(c));
    x[start..start + PrefixLength(c)] == x[start + FftSize(c)..start + FftSize(c) + PrefixLength(c)]
  }

  lemma SymbolFits(m: nat, sym: nat, total: nat)
    requires sym > 0 && m < SymbolCount(total, sym)
    ensures StartOf(m, sym) + sym <= total
  {
    StartsOrdered(m, SymbolCount(total, sym), sym);
  }

  /** Every whole symbol of the block, counted from its start, carries a cyclic prefix. */
  ghost predicate ExactPrefix(x: seq<Complex>, c: nat)
    requires c < CANDIDATES
  {
    forall m: nat :: m < SymbolCount(|x|, SymbolLength(c)) ==>
      StartOf(m, SymbolLength(c)) + SymbolLength(c) <= |x| && SymbolRepeats(x, c, m)
  }

  lemma RepeatsInSymbol(x: seq<Complex>, c: nat, m: nat, k: nat, start: nat)
    requires c < CANDIDATES && start == StartOf(m, SymbolLength(c)) && start + SymbolLength(c) <= |x|
    requires SymbolRepeats(x, c, m) && k < PrefixLength(c)
    ensures start + k + FftSize(c) < |x|
    ensures x[start + k] == x[start + k + FftSize(c)]
  {
    hide FftSize, PrefixLength;
    var ncp, nfft := PrefixLength(c), FftSize(c);
    assert x[start..start + ncp][k] == x[start + nfft..start + nfft + ncp][k];
  }

  ghost predicate Repeats(x: seq<Complex>, p: seq<nat>, nfft: nat) {
    forall j :: 0 <= j < |p| ==> p[j] + nfft < |x| && x[p[j]] == x[p[j] + nfft]
  }

  lemma RepeatsAppend(x: seq<Complex>, p: seq<nat>, q: seq<nat>, nfft: nat)
    requires Repeats(x, p, nfft) && Repeats(x, q, nfft)
    ensures Repeats(x, p + q, nfft)
  {
  }

  lemma {:induction false} RepeatedPositions(x: seq<Complex>, c: nat, m: nat)
    requires c < CANDIDATES && ExactPrefix(x, c) && m <= SymbolCount(|x|, SymbolLength(c))
    ensures Repeats(x, Positions(SymbolLength(c), PrefixLength(c), m), FftSize(c))
  {
    hide FftSize, PrefixLength;
    if m == 0 {
    } else {
      var sym, ncp, nfft := SymbolLength(c), PrefixLength(c), FftSize(c);
      RepeatedPositions(x, c, m - 1);
      SymbolFits(m - 1, sym, |x|);
      var start := StartOf(m - 1, sym);
      var run := Run(start, ncp);
      forall k | 0 <= k < ncp
        ensures run[k] + nfft < |x| && x[run[k]] == x[run[k] + nfft]
      {
        RepeatsInSymbol(x, c, m - 1, k, start);
      }
      RepeatsAppend(x, Positions(sym, ncp, m - 1), run, nfft);
    }
  }

  lemma ExactPrefixPairs(x: seq<Complex>, c: nat)
    requires c < CANDIDATES && ExactPrefix(x, c)
    ensures Heads(x, c) == Tails(x, c)
  {
    hide FftSize, PrefixLength;
    SymbolPositionsInRange(x, c);
    RepeatedPositions(x, c, SymbolCount(|x|, SymbolLength(c)));
  }

  /** A candidate that scores has at least four whole symbols in the block, and energy in both parts. */
  lemma FourSymbols(x: seq<Complex>, c: nat)
    requires c < CANDIDATES
    ensures ScoreOf(x, c) > 0.0 ==> |x| >= 4 * (FftSize(c) + PrefixLength(c))
    ensures |x| >= 4 * (FftSize(c) + PrefixLength(c)) && ExactPrefix(x, c) && Energy(Heads(x, c)) >= SILENCE ==>
              ScoreOf(x, c) == 1.0
    ensures |x| < 272 ==> ScoreOf(x, c) == 0.0
  {
    hide Heads, Tails, Energy, Correlation, Complex.Norm, SquaredScore, ExactPrefix;
    if |x| >= 4 * (FftSize(c) + PrefixLength(c)) && ExactPrefix(x, c) && Energy(Heads(x, c)) >= SILENCE {
      ExactPrefixScoresOne(x, c);
    }
  }

  /** An exact aligned prefix with audible energy scores 1, the highest score there is. */
  lemma ExactPrefixScoresOne(x: seq<Complex>, c: nat)
    requires c < CANDIDATES && Admissible(x, c) && ExactPrefix(x, c)
    requires Energy(Heads(x, c)) >= SILENCE
    ensures ScoreOf(x, c) == 1.0
  {
    hide Heads, Tails, Energy, Correlation, Complex.Norm, SquaredScore, FftSize, PrefixLength, ExactPrefix;
    ExactPrefixPairs(x, c);
    SelfCorrelation(Heads(x, c));
    PerfectScore(Energy(Heads(x, c)));
  }

  /**
   A block with an exact aligned prefix of some admissible size is detected, and whichever pair is
   reported explains the block perfectly as well.
   */
  lemma ExactPrefixDetected(x: seq<Complex>, c: nat, best: nat)
    requires c < CANDIDATES && Admissible(x, c) && ExactPrefix(x, c)
    requires Energy(Heads(x, c)) >= SILENCE && FirstBest(x, best, CANDIDATES)
    ensures ScoreOf(x, best) == 1.0 > THRESHOLD && best <= c
  {
    hide ScoreOf, ExactPrefix, Energy, Heads;
    ExactPrefixScoresOne(x, c);
    ScoreInUnitInterval(x, best);
  }

  // ----- carrier offset

  function Power(u: Complex, n: nat): Complex {
    if n == 0 then Complex(1.0, 0.0) else Power(u, n - 1).Times(u)
  }

  /** The block as received u radians per sample off frequency: sample n turns by u^n. */
  function OffFrequency(x: seq<Complex>, u: Complex): (y: seq<Complex>)
    ensures |y| == |x| && forall n :: 0 <= n < |y| ==> y[n] == x[n].Times(Power(u, n))
  {
    seq(|x|, n requires 0 <= n < |x| => x[n].Times(Power(u, n)))
  }

  lemma {:induction false} PowerNorm(u: Complex, n: nat)
    requires u.Norm() == 1.0
    ensures Power(u, n).Norm() == 1.0
  {
    if n == 0 {
    } else {
      PowerNorm(u, n - 1);
      NormOfProduct(Power(u, n - 1), u);
    }
  }

  lemma {:induction false} PowerAdds(u: Complex, n: nat, m: nat)
    ensures Power(u, n + m) == Power(u, n).Times(Power(u, m))
  {
    if m == 0 {
    } else {
      hide Complex.Times;
      PowerAdds(u, n, m - 1);
      TimesAssociative(Power(u, n), Power(u, m - 1), u);
    }
  }

  lemma CrossTermOffset(a: Complex, b: Complex, p: Complex, w: Complex)
    requires p.Norm() == 1.0
    ensures a.Times(p).Times(b.Times(p.Times(w)).Conj()) == a.Times(b.Conj()).Times(w.Conj())
  {
    hide Complex.Times, Complex.Norm;
    ConjOfProduct(b, p.Times(w));
    ConjOfProduct(p, w);
    var b', p', w' := b.Conj(), p.Conj(), w.Conj();
    SelfTerm(p);
    Regroup(a, p, b', p', w');
    UnitFactor(a.Times(b').Times(w'));
  }

  lemma ConjOfProduct(a: Complex, b: Complex)
    ensures a.Times(b).Conj() == a.Conj().Times(b.Conj())
  {
  }

  lemma UnitFactor(z: Complex)
    ensures z.Times(Complex(1.0, 0.0)) == z
  {
  }

  lemma TimesCommutes(a: Complex, b: Complex)
    ensures a.Times(b) == b.Times(a)
  {
  }

  lemma Regroup(a: Complex, p: Complex, b: Complex, q: Complex, w: Complex)
    ensures a.Times(p).Times(b.Times(q.Times(w))) == a.Times(b).Times(w).Times(p.Times(q))
  {
    hide *;
    calc {
      a.Times(p).Times(b.Times(q.Times(w)));
    ==  { TimesAssociative(a, p, b.Times(q.Times(w))); }
      a.Times(p.Times(b.Times(q.Times(w))));
    ==  { TimesAssociative(p, b, q.Times(w)); TimesCommutes(p, b); TimesAssociative(b, p, q.Times(w)); }
      a.Times(b.Times(p.Times(q.Times(w))));
    ==  { TimesAssociative(p, q, w); TimesCommutes(p.Times(q), w); }
      a.Times(b.Times(w.Times(p.Times(q))));
    ==  { TimesAssociative(b, w, p.Times(q)); TimesAssociative(a, b.Times(w), p.Times(q)); TimesAssociative(a, b, w); }
      a.Times(b).Times(w).Times(p.Times(q));
    }
  }

  lemma OffsetPairs(x: seq<Complex>, u: Complex, p: seq<nat>, nfft: nat)
    requires u.Norm() == 1.0 && InRange(p, 0, |x|) && InRange(p, nfft, |x|)
    ensures Multiplied(CrossTerms(Picked(OffFrequency(x, u), p, 0), Picked(OffFrequency(x, u), p, nfft)),
                       CrossTerms(Picked(x, p, 0), Picked(x, p, nfft)), Power(u, nfft).Conj())
    ensures Norms(Picked(OffFrequency(x, u), p, 0)) == Norms(Picked(x, p, 0))
    ensures Norms(Picked(OffFrequency(x, u), p, nfft)) == Norms(Picked(x, p, nfft))
  {
    hide *;
    OffsetNorms(x, u, p, 0);
    OffsetNorms(x, u, p, nfft);
    OffsetCrossTerms(x, u, p, nfft);
  }

  lemma OffsetNorms(x: seq<Complex>, u: Complex, p: seq<nat>, shift: nat)
    requires u.Norm() == 1.0 && InRange(p, shift, |x|)
    ensures Norms(Picked(OffFrequency(x, u), p, shift)) == Norms(Picked(x, p, shift))
  {
    hide Complex.Times, Complex.Norm, Power, Picked, OffFrequency, Norms;
    var a, a' := Picked(x, p, shift), Picked(OffFrequency(x, u), p, shift);
    forall j | 0 <= j < |p|
      ensures Norms(a')[j] == Norms(a)[j]
    {
      PowerNorm(u, p[j] + shift);
      NormOfProduct(x[p[j] + shift], Power(u, p[j] + shift));
    }
  }

  lemma OffsetCrossTerms(x: seq<Complex>, u: Complex, p: seq<nat>, nfft: nat)
    requires u.Norm() == 1.0 && InRange(p, 0, |x|) && InRange(p, nfft, |x|)
    ensures Multiplied(CrossTerms(Picked(OffFrequency(x, u), p, 0), Picked(OffFrequency(x, u), p, nfft)),
                       CrossTerms(Picked(x, p, 0), Picked(x, p, nfft)), Power(u, nfft).Conj())
  {
    hide Complex.Times, Complex.Norm, Complex.Conj, Power, Picked, OffFrequency, CrossTerms;
    var y := OffFrequency(x, u);
    var a, b, a', b' := Picked(x, p, 0), Picked(x, p, nfft), Picked(y, p, 0), Picked(y, p, nfft);
    forall j | 0 <= j < |p|
      ensures CrossTerms(a', b')[j] == CrossTerms(a, b)[j].Times(Power(u, nfft).Conj())
    {
      OffsetPair(x[p[j]], x[p[j] + nfft], u, p[j], nfft);
    }
  }

  lemma OffsetPair(a: Complex, b: Complex, u: Complex, n: nat, nfft: nat)
    requires u.Norm() == 1.0
    ensures a.Times(Power(u, n)).Times(b.Times(Power(u, n + nfft)).Conj())
            == a.Times(b.Conj()).Times(Power(u, nfft).Conj())
  {
    hide Complex.Times, Complex.Norm, Complex.Conj, Power;
    PowerNorm(u, n);
    PowerAdds(u, n, nfft);
    CrossTermOffset(a, b, Power(u, n), Power(u, nfft));
  }

  lemma OffsetCorrelation(cross: seq<Complex>, cross': seq<Complex>, u: Complex, nfft: nat)
    requires u.Norm() == 1.0 && Multiplied(cross', cross, Power(u, nfft).Conj())
    ensures ComplexSum(cross').Norm() == ComplexSum(cross).Norm()
  {
    hide *;
    var w := Power(u, nfft);
    ComplexSumFactor(cross', cross, w.Conj());
    NormOfProduct(ComplexSum(cross), w.Conj());
    NormOfProduct(ComplexSum(cross), w);
    PowerNorm(u, nfft);
  }

  lemma OffsetSums(x: seq<Complex>, u: Complex, c: nat)
    requires c < CANDIDATES && u.Norm() == 1.0
    ensures var y := OffFrequency(x, u);
            && Correlation(Heads(y, c), Tails(y, c)).Norm() == Correlation(Heads(x, c), Tails(x, c)).Norm()
            && Energy(Heads(y, c)) == Energy(Heads(x, c)) && Energy(Tails(y, c)) == Energy(Tails(x, c))
  {
    hide Complex.Times, Complex.Norm, Complex.Conj, Power, ComplexSum, RealSums.Sum, Norms, CrossTerms, Picked,
         Multiplied, FftSize, PrefixLength, Positions, OffFrequency, InRange;
    var y, nfft, p := OffFrequency(x, u), FftSize(c), SymbolPositions(x, c);
    assert SymbolPositions(y, c) == p;
    SymbolPositionsInRange(x, c);
    OffsetPairs(x, u, p, nfft);
    hide SymbolPositions;
    OffsetCorrelation(CrossTerms(Picked(x, p, 0), Picked(x, p, nfft)),
                      CrossTerms(Picked(y, p, 0), Picked(y, p, nfft)), u, nfft);
  }

  /** A carrier offset changes no candidate's score, so neither the decision nor the reported pair. */
  lemma ScoreIgnoresCarrierOffset(x: seq<Complex>, u: Complex, c: nat)
    requires c < CANDIDATES && u.Norm() == 1.0
    ensures ScoreOf(OffFrequency(x, u), c) == ScoreOf(x, c)
  {
    hide Complex.Norm, Energy, Correlation, Heads, Tails, OffFrequency, SquaredScore, FftSize, PrefixLength;
    OffsetSums(x, u, c);
  }
}
