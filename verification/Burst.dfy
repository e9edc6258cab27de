/** Burst detection from the on/off pattern of a hundred power windows (detectBurst). */
module Burst {
  import opened Blocks
  import opened RealSums
  import opened ComplexNumbers

  const WINDOWS: nat := 100

  /** The windows of a block are its first WINDOWS * size samples. */
  function Window(x: seq<Complex>, w: nat, size: nat): seq<Complex>
    requires w < WINDOWS && WINDOWS * size <= |x|
  {
    assert w * size + size <= WINDOWS * size by { WindowFits(w, size); }
    x[w * size..w * size + size]
  }

  lemma WindowFits(w: nat, size: nat)
    requires w < WINDOWS
    ensures w * size + size <= WINDOWS * size
  {
    assert (WINDOWS - w - 1) * size >= 0;
  }

  /** Mean power of every window. */
  function Powers(x: seq<Complex>, size: nat): (p: seq<real>)
    requires size > 0 && WINDOWS * size <= |x|
    ensures |p| == WINDOWS
    ensures forall w :: 0 <= w < WINDOWS ==> p[w] == Energy(Window(x, w, size)) / size as real
  {
    seq(WINDOWS, w requires 0 <= w < WINDOWS => Energy(Window(x, w, size)) / size as real)
  }

  function PeakOf(p: seq<real>): (m: real)
    ensures m >= 0.0 && forall w :: 0 <= w < |p| ==> m >= p[w]
    ensures m == 0.0 || m in p
  {
    if p == [] then 0.0
    else
      var n := |p| - 1;
      assert forall w :: 0 <= w < n ==> p[..n][w] == p[w];
      if p[n] > PeakOf(p[..n]) then p[n] else PeakOf(p[..n])
  }

  /** 1 for a window whose power is above a tenth of the peak, 0 for the others. */
  function OnOff(p: seq<real>): (on: seq<int>)
    ensures Binary(on) && |on| == |p|
    ensures forall w :: 0 <= w < |p| ==> (on[w] == 1 <==> p[w] > PeakOf(p) * 0.1)
  {
    seq(|p|, w requires 0 <= w < |p| => if p[w] > PeakOf(p) * 0.1 then 1 else 0)
  }

  ghost predicate Binary(on: seq<int>) {
    forall w :: 0 <= w < |on| ==> on[w] == 0 || on[w] == 1
  }

  /** How many of the first n windows are on. */
  function CountOn(on: seq<int>, n: nat): int
    requires n <= |on|
  {
    if n == 0 then 0 else CountOn(on, n - 1) + on[n - 1]
  }

  /** 1 when the window w and the window lag later are both on. */
  function Together(on: seq<int>, lag: nat, w: nat): int
    requires w + lag < |on|
  {
    if on[w] == 1 && on[w + lag] == 1 then 1 else 0
  }

  /** How many of the first n windows are on together with the window lag later. */
  function Matches(on: seq<int>, lag: nat, n: nat): int
    requires n + lag <= |on|
  {
    if n == 0 then 0 else Matches(on, lag, n - 1) + Together(on, lag, n - 1)
  }

  /** The on/off autocorrelation at a lag. */
  function AutoCorrelation(on: seq<int>, lag: nat): int
    requires lag <= |on|
  {
    Matches(on, lag, |on| - lag)
  }

  /** The smallest lag of 2 .. limit-1 that no lag of that range beats. */
  ghost predicate BestLag(on: seq<int>, lag: nat, limit: nat)
    requires limit <= |on|
  {
    && 2 <= lag < limit
    && (forall l: nat :: 2 <= l < limit ==> AutoCorrelation(on, l) <= AutoCorrelation(on, lag))
    && (forall l: nat :: 2 <= l < lag ==> AutoCorrelation(on, l) < AutoCorrelation(on, lag))
  }

  lemma {:induction false} MatchesNonNegative(on: seq<int>, lag: nat, n: nat)
    requires Binary(on) && n + lag <= |on|
    ensures 0 <= Matches(on, lag, n) <= CountOn(on, n)
  {
    if n == 0 {
    } else {
      MatchesNonNegative(on, lag, n - 1);
    }
  }

  lemma {:induction false} CountMonotone(on: seq<int>, a: nat, b: nat)
    requires Binary(on) && a <= b <= |on|
    ensures CountOn(on, a) <= CountOn(on, b) <= CountOn(on, a) + b - a
  {
    if a == b {
    } else {
      CountMonotone(on, a, b - 1);
    }
  }

  method WindowPowers(x: seq<Complex>, size: nat) returns (power: array<real>, peak: real)
    requires size > 0 && WINDOWS * size <= |x|
    ensures power.Length == WINDOWS && power[..] == Powers(x, size) && peak == PeakOf(power[..])
  {
    hide Complex.Norm;
    ghost var p := Powers(x, size);
    power := new real[WINDOWS];
    peak := 0.0;
    for w := 0 to WINDOWS
      invariant power[..w] == p[..w] && peak == PeakOf(p[..w])
    {
      assert p[..w + 1][..w] == p[..w];
      var energy := WindowEnergy(x, w, size);
      power[w] := energy / size as real;
      if power[w] > peak {
        peak := power[w];
      }
    }
    assert p[..WINDOWS] == p;
  }

  method WindowEnergy(x: seq<Complex>, w: nat, size: nat) returns (energy: real)
    requires w < WINDOWS && WINDOWS * size <= |x|
    ensures energy == Energy(Window(x, w, size))
  {
    hide Complex.Norm, RealSums.Sum;
    WindowFits(w, size);
    energy := EnergyFrom(x, w * size, size);
  }

  method EnergyFrom(x: seq<Complex>, start: nat, size: nat) returns (energy: real)
    requires start + size <= |x|
    ensures energy == Energy(x[start..start + size])
  {
    hide Complex.Norm, RealSums.Sum;
    ghost var norms := Norms(x[start..start + size]);
    energy := 0.0;
    SumEmpty();
    for i := start to start + size
      invariant energy == Sum(norms[..i - start])
    {
      SumStep(norms, i - start);
      energy := energy + x[i].Norm();
    }
    SumAll(norms);
  }

  /** If no window has more energy than window v, a window is on exactly if it has over a tenth of that. */
  lemma TenthOfPeak(x: seq<Complex>, v: nat, w: nat)
    requires |x| >= WINDOWS && v < WINDOWS && w < WINDOWS
    requires var size := |x| / WINDOWS;
             forall u :: 0 <= u < WINDOWS ==> Energy(Window(x, u, size)) <= Energy(Window(x, v, size))
    ensures var size := |x| / WINDOWS;
            PatternOf(x)[w] == 1 <==> 10.0 * Energy(Window(x, w, size)) > Energy(Window(x, v, size))
  {
    hide Energy, Window;
    var size := |x| / WINDOWS;
    var p := Powers(x, size);
    forall u | 0 <= u < WINDOWS
      ensures p[u] <= p[v]
    {
      MeanOrder(p[u], Energy(Window(x, u, size)), p[v], Energy(Window(x, v, size)), size as real);
    }
    EnergyNonNegative(Window(x, v, size));
    MeanOrder(0.0, 0.0, p[v], Energy(Window(x, v, size)), size as real);
    assert PeakOf(p) == p[v];
    MeanTenth(p[w], Energy(Window(x, w, size)), p[v], Energy(Window(x, v, size)), size as real);
  }

  lemma MeanOrder(p: real, a: real, q: real, b: real, n: real)
    requires n > 0.0 && p == a / n && q == b / n && a <= b
    ensures p <= q
  {
    ClearQuotient(p, a, n);
    ClearQuotient(q, b, n);
    OrderedByFactor(p, q, n);
  }

  lemma MeanTenth(p: real, a: real, q: real, b: real, n: real)
    requires n > 0.0 && p == a / n && q == b / n
    ensures p > q * 0.1 <==> 10.0 * a > b
  {
    ClearQuotient(p, a, n);
    ClearQuotient(q, b, n);
    if p > q * 0.1 {
      PositiveProduct(p - q * 0.1, n, a - b * 0.1);
    } else {
      ProductOfOrdered(0.0, q * 0.1 - p, 0.0, n);
      assert (q * 0.1 - p) * n == b * 0.1 - a;
    }
  }

  /** The on/off pattern of the windows of a block. */
  ghost function PatternOf(x: seq<Complex>): seq<int>
    requires |x| >= WINDOWS
  {
    OnOff(Powers(x, |x| / WINDOWS))
  }

  /** What a burst report says about the pattern it was computed from. */
  ghost predicate Reports(on: seq<int>, size: nat, burst: bool, duty: real, period: nat)
    requires |on| == WINDOWS
  {
    && duty == CountOn(on, WINDOWS) as real / 100.0
    && (burst <==> duty < 0.85)
    && (!burst ==> period == 0)
    && (burst ==> exists lag: nat :: BestLag(on, lag, 50) && period == lag * size)
  }

  /** A burst always carries the positive period of its best lag. */
  method DetectBurst(x: seq<Complex>) returns (burst: bool, duty: real, period: nat)
    ensures |x| < WINDOWS ==> !burst && duty == 1.0 && period == 0
    ensures |x| >= WINDOWS ==> Reports(PatternOf(x), |x| / WINDOWS, burst, duty, period)
    ensures 0.0 <= duty <= 1.0
    ensures burst <==> period > 0
  {
    hide Powers, OnOff, Reports;
    var size := |x| / WINDOWS;
    if size < 1 {
      return false, 1.0, 0;
    }
    var power, peak := WindowPowers(x, size);
    var onOff, onCount := Threshold(power, peak);
    burst, duty, period := JudgePattern(onOff, onCount, size);
  }

  method JudgePattern(onOff: array<int>, onCount: int, size: nat) returns (burst: bool, duty: real, period: nat)
    requires onOff.Length == WINDOWS && Binary(onOff[..]) && onCount == CountOn(onOff[..], WINDOWS) && size > 0
    ensures Reports(onOff[..], size, burst, duty, period)
    ensures 0.0 <= duty <= 1.0
    ensures burst <==> period > 0
  {
    hide CountOn, AutoCorrelation;
    DutyRange(onOff[..], onCount);
    duty := onCount as real / 100.0;
    if duty >= 0.85 {
      return false, duty, 0;
    }
    var bestLag := FindLag(onOff);
    assert 2 <= bestLag;
    PositiveLag(bestLag, size);
    return true, duty, bestLag * size;
  }

  lemma DutyRange(on: seq<int>, count: int)
    requires |on| == WINDOWS && Binary(on) && count == CountOn(on, WINDOWS)
    ensures 0.0 <= count as real / 100.0 <= 1.0
  {
    CountMonotone(on, 0, WINDOWS);
  }

  lemma PositiveLag(lag: nat, size: nat)
    requires lag > 0 && size > 0
    ensures lag * size > 0
  {
  }

  method Threshold(power: array<real>, peak: real) returns (onOff: array<int>, onCount: int)
    requires power.Length == WINDOWS && peak == PeakOf(power[..])
    ensures onOff.Length == WINDOWS && onOff[..] == OnOff(power[..])
    ensures onCount == CountOn(onOff[..], WINDOWS)
  {
    ghost var on := OnOff(power[..]);
    var threshold := peak * 0.1;
    onOff := new int[WINDOWS];
    onCount := 0;
    for w := 0 to WINDOWS
      invariant onOff[..w] == on[..w] && onCount == CountOn(on, w)
    {
      onOff[w] := if power[w] > threshold then 1 else 0;
      onCount := onCount + onOff[w];
    }
    assert onOff[..] == on;
  }

  lemma BinaryProduct(a: int, b: int)
    requires (a == 0 || a == 1) && (b == 0 || b == 1)
    ensures a * b == if a == 1 && b == 1 then 1 else 0
  {
  }

  method FindLag(onOff: array<int>) returns (bestLag: nat)
    requires onOff.Length == WINDOWS && Binary(onOff[..])
    ensures BestLag(onOff[..], bestLag, 50)
  {
    ghost var on := onOff[..];
    bestLag := 0;
    var bestAc := -1000000000;
    for lag := 2 to WINDOWS / 2
      invariant lag == 2 ==> bestLag == 0 && bestAc == -1000000000
      invariant lag > 2 ==> BestLag(on, bestLag, lag) && bestAc == AutoCorrelation(on, bestLag)
    {
      var ac := 0;
      for w := 0 to WINDOWS - lag
        invariant ac == Matches(on, lag, w)
      {
        BinaryProduct(onOff[w], onOff[w + lag]);
        ac := ac + onOff[w] * onOff[w + lag];
      }
      MatchesNonNegative(on, lag, WINDOWS - lag);
      if ac > bestAc {
        bestAc := ac;
        bestLag := lag;
      }
    }
  }

  // ----- what the reported lag means for repeating patterns

  /** The pattern repeats every period windows. */
  ghost predicate Periodic(on: seq<int>, period: nat) {
    forall w :: 0 <= w && w + period < |on| ==> on[w] == on[w + period]
  }

  lemma {:induction false} PeriodicMatches(on: seq<int>, period: nat, n: nat)
    requires Binary(on) && Periodic(on, period) && n + period <= |on|
    ensures Matches(on, period, n) == CountOn(on, n)
  {
    if n == 0 {
    } else {
      PeriodicMatches(on, period, n - 1);
      assert on[n - 1] == on[n - 1 + period];
    }
  }

  /** Lags beyond the period of a repeating pattern never beat it. */
  lemma LongerLagsLose(on: seq<int>, period: nat, lag: nat)
    requires Binary(on) && Periodic(on, period) && period <= lag <= |on|
    ensures AutoCorrelation(on, lag) <= AutoCorrelation(on, period)
  {
    MatchesNonNegative(on, lag, |on| - lag);
    PeriodicMatches(on, period, |on| - period);
    CountMonotone(on, |on| - lag, |on| - period);
  }

  /**
   For a repeating pattern the detector reports the period exactly when no shorter lag matches as
   often.
   */
  lemma PeriodReported(on: seq<int>, period: nat, lag: nat)
    requires |on| == WINDOWS && Binary(on) && Periodic(on, period) && 2 <= period < 50
    requires BestLag(on, lag, 50)
    ensures lag <= period
    ensures lag == period <==> forall l: nat :: 2 <= l < period ==> AutoCorrelation(on, l) < AutoCorrelation(on, period)
  {
    hide AutoCorrelation, Binary, Periodic;
    if period < lag {
      LongerLagsLose(on, period, lag);
    }
    assert AutoCorrelation(on, period) <= AutoCorrelation(on, lag);
  }

  /** The remainder of w by period. */
  function Phase(w: nat, period: nat): (r: nat)
    requires period > 0
    ensures r < period
    decreases w
  {
    if w < period then w else Phase(w - period, period)
  }

  /** One on window in every period windows. */
  ghost predicate ImpulseTrain(on: seq<int>, period: nat, phase: nat) {
    phase < period && forall w :: 0 <= w < |on| ==> on[w] == if Phase(w, period) == phase then 1 else 0
  }

  lemma {:induction false} DifferentPhase(w: nat, l: nat, period: nat)
    requires 0 < l < period
    ensures Phase(w + l, period) != Phase(w, period)
    decreases w
  {
    if w < period {
    } else {
      DifferentPhase(w - period, l, period);
    }
  }

  lemma ImpulsesRepeat(on: seq<int>, period: nat, phase: nat)
    requires ImpulseTrain(on, period, phase)
    ensures Binary(on) && Periodic(on, period)
  {
    forall w | 0 <= w && w + period < |on|
      ensures on[w] == on[w + period]
    {
      assert Phase(w + period, period) == Phase(w, period);
    }
  }

  lemma {:induction false} ImpulsesMissShortLags(on: seq<int>, period: nat, phase: nat, l: nat, n: nat)
    requires ImpulseTrain(on, period, phase) && 0 < l < period && n + l <= |on|
    ensures Matches(on, l, n) == 0
  {
    if n == 0 {
    } else {
      ImpulsesMissShortLags(on, period, phase, l, n - 1);
      DifferentPhase(n - 1, l, period);
    }
  }

  lemma ImpulsesMeetAtPeriod(on: seq<int>, period: nat, phase: nat)
    requires |on| == WINDOWS && ImpulseTrain(on, period, phase) && 2 <= period < 50
    ensures AutoCorrelation(on, period) >= 1
  {
    ImpulsesRepeat(on, period, phase);
    PeriodicMatches(on, period, |on| - period);
    assert Phase(phase, period) == phase && on[phase] == 1;
    assert CountOn(on, phase + 1) == CountOn(on, phase) + 1;
    CountMonotone(on, 0, phase);
    CountMonotone(on, phase + 1, |on| - period);
  }

  /** The period of a train of one-window pulses is always reported. */
  lemma ImpulsePeriodReported(on: seq<int>, period: nat, phase: nat, lag: nat)
    requires |on| == WINDOWS && ImpulseTrain(on, period, phase) && 2 <= period < 50 && BestLag(on, lag, 50)
    ensures lag == period
  {
    ImpulsesRepeat(on, period, phase);
    ImpulsesMeetAtPeriod(on, period, phase);
    forall l: nat | 2 <= l < period
      ensures AutoCorrelation(on, l) < AutoCorrelation(on, period)
    {
      ImpulsesMissShortLags(on, period, phase, l, |on| - l);
    }
    PeriodReported(on, period, lag);
  }

  /** Whether every pair of windows w, w + lag with a <= w < b is on together (or none is). */
  ghost predicate SamePairs(on: seq<int>, lag: nat, a: nat, b: nat, on1: bool)
    requires b + lag <= |on|
  {
    forall w: nat :: a <= w < b ==> Together(on, lag, w) == if on1 then 1 else 0
  }

  lemma {:induction false} ConstantMatches(on: seq<int>, lag: nat, a: nat, b: nat, on1: bool)
    requires a <= b && b + lag <= |on| && SamePairs(on, lag, a, b, on1)
    ensures Matches(on, lag, b) == Matches(on, lag, a) + if on1 then b - a else 0
  {
    if a == b {
    } else {
      ConstantMatches(on, lag, a, b - 1, on1);
    }
  }

  // ----- trains of wide pulses

  /** In every period the first width windows are on and the others off. */
  ghost predicate PulseTrain(on: seq<int>, period: nat, width: nat) {
    && 0 < width < period
    && forall w :: 0 <= w < |on| ==> on[w] == if Phase(w, period) < width then 1 else 0
  }

  lemma PulsesRepeat(on: seq<int>, period: nat, width: nat)
    requires PulseTrain(on, period, width)
    ensures Binary(on) && Periodic(on, period)
  {
    forall w | 0 <= w && w + period < |on|
      ensures on[w] == on[w + period]
    {
      assert Phase(w + period, period) == Phase(w, period);
    }
  }

  lemma {:induction false} PhaseInPeriod(k: nat, period: nat, r: nat)
    requires r < period
    ensures Phase(StartOf(k, period) + r, period) == r
  {
    if k == 0 {
    } else {
      PhaseInPeriod(k - 1, period, r);
      assert StartOf(k, period) + r - period == StartOf(k - 1, period) + r;
    }
  }

  function Positive(v: int): nat {
    if v > 0 then v else 0
  }

  function Least(a: int, b: int): int {
    if a < b then a else b
  }

  /** How many pairs at a lag below the period are on in one period of a pulse train. */
  function PairsInPeriod(period: nat, width: nat, lag: nat): nat {
    Positive(width - lag) + Positive(width + lag - period)
  }

  lemma PairWithin(on: seq<int>, period: nat, width: nat, lag: nat, k: nat, r: nat)
    requires PulseTrain(on, period, width) && 0 < lag && r + lag < period
    requires StartOf(k, period) + r + lag < |on|
    ensures Together(on, lag, StartOf(k, period) + r) == if r < Positive(width - lag) then 1 else 0
  {
    PhaseInPeriod(k, period, r);
    PhaseInPeriod(k, period, r + lag);
  }

  /** Pairs that start in the first period - lag windows of period k end in the same period. */
  lemma PairsWithin(on: seq<int>, period: nat, width: nat, lag: nat, k: nat, e: nat)
    requires PulseTrain(on, period, width) && Binary(on) && 0 < lag < period && e <= period - lag
    requires StartOf(k, period) + e + lag <= |on|
    ensures Matches(on, lag, StartOf(k, period) + e)
            == Matches(on, lag, StartOf(k, period)) + Least(Positive(width - lag), e)
  {
    var s, p := StartOf(k, period), Least(Positive(width - lag), e);
    forall w: nat | s <= w < s + e
      ensures Together(on, lag, w) == if w < s + p then 1 else 0
    {
      PairWithin(on, period, width, lag, k, w - s);
    }
    hide Matches, Together, PulseTrain, StartOf, Phase;
    ConstantMatches(on, lag, s, s + p, true);
    ConstantMatches(on, lag, s + p, s + e, false);
  }

  lemma PairAcross(on: seq<int>, period: nat, width: nat, lag: nat, k: nat, r: nat)
    requires PulseTrain(on, period, width) && 0 < lag < period && r < lag
    requires StartOf(k, period) + period + r < |on|
    ensures Together(on, lag, StartOf(k, period) + period - lag + r)
            == if r < Positive(width + lag - period) then 1 else 0
  {
    PhaseInPeriod(k, period, period - lag + r);
    PhaseInPeriod(k + 1, period, r);
  }

  /** Pairs that start in its last lag windows end in the next period. */
  lemma PairsAcross(on: seq<int>, period: nat, width: nat, lag: nat, k: nat, e: nat)
    requires PulseTrain(on, period, width) && Binary(on) && 0 < lag < period && e <= lag
    requires StartOf(k, period) + period + e <= |on|
    ensures Matches(on, lag, StartOf(k, period) + period - lag + e)
            == Matches(on, lag, StartOf(k, period) + period - lag) + Least(Positive(width + lag - period), e)
  {
    var s, p := StartOf(k, period) + period - lag, Least(Positive(width + lag - period), e);
    forall w: nat | s <= w < s + e
      ensures Together(on, lag, w) == if w < s + p then 1 else 0
    {
      PairAcross(on, period, width, lag, k, w - s);
    }
    hide Matches, Together, PulseTrain, StartOf, Phase;
    ConstantMatches(on, lag, s, s + p, true);
    ConstantMatches(on, lag, s + p, s + e, false);
  }

  lemma {:induction false} PairsOfPeriods(on: seq<int>, period: nat, width: nat, lag: nat, k: nat)
    requires PulseTrain(on, period, width) && Binary(on) && 0 < lag < period
    requires StartOf(k, period) + lag <= |on|
    ensures Matches(on, lag, StartOf(k, period)) == StartOf(k, PairsInPeriod(period, width, lag))
  {
    if k == 0 {
    } else {
      PairsOfPeriods(on, period, width, lag, k - 1);
      PairsWithin(on, period, width, lag, k - 1, period - lag);
      PairsAcross(on, period, width, lag, k - 1, lag);
    }
  }

  /** The train has count whole periods and rest further windows. */
  predicate Splits(windows: nat, period: nat, count: nat, rest: nat) {
    windows == StartOf(count, period) + rest && rest < period && count >= 2
  }

  /** The pairs at a lag below the period: in whole pulses, in the cut one, and across the gaps. */
  function PulsePairs(period: nat, width: nat, count: nat, rest: nat, lag: nat): int {
    count * Positive(width - lag) + Positive(Least(width, rest) - lag)
    + (count - 1) * Positive(width + lag - period) + Least(Positive(width + lag - period), rest)
  }

  lemma WholePairs(on: seq<int>, period: nat, width: nat, lag: nat, k: nat)
    requires PulseTrain(on, period, width) && Binary(on) && 0 < lag < period && StartOf(k, period) + lag <= |on|
    ensures Matches(on, lag, StartOf(k, period)) == k * Positive(width - lag) + k * Positive(width + lag - period)
  {
    PairsOfPeriods(on, period, width, lag, k);
    StartIsProduct(k, PairsInPeriod(period, width, lag));
    hide Matches, StartOf;
    SplitProduct(k, Positive(width - lag), Positive(width + lag - period));
  }

  lemma SplitProduct(k: int, a: int, b: int)
    ensures k * (a + b) == k * a + k * b
  {
  }

  lemma OneLess(k: int, a: int)
    ensures k * a == (k - 1) * a + a
  {
  }

  /** The autocorrelation of a pulse train at a lag below its period, in closed form. */
  lemma PulseCorrelation(on: seq<int>, period: nat, width: nat, count: nat, rest: nat, lag: nat)
    requires PulseTrain(on, period, width) && Binary(on) && 0 < lag < period
    requires Splits(|on|, period, count, rest)
    ensures AutoCorrelation(on, lag) == PulsePairs(period, width, count, rest, lag)
  {
    var s, t := Positive(width - lag), Positive(width + lag - period);
    if lag <= rest {
      WholePairs(on, period, width, lag, count);
      PairsWithin(on, period, width, lag, count, rest - lag);
      OneLess(count, t);
    } else {
      var k := count - 1;
      assert StartOf(count, period) == StartOf(k, period) + period;
      WholePairs(on, period, width, lag, k);
      PairsWithin(on, period, width, lag, k, period - lag);
      PairsAcross(on, period, width, lag, k, rest);
      OneLess(count, s);
    }
  }

  lemma {:induction false} OnInPeriods(on: seq<int>, period: nat, width: nat, k: nat)
    requires PulseTrain(on, period, width) && StartOf(k, period) <= |on|
    ensures CountOn(on, StartOf(k, period)) == StartOf(k, width)
  {
    if k == 0 {
    } else {
      OnInPeriods(on, period, width, k - 1);
      OnInPeriod(on, period, width, k - 1, period);
    }
  }

  lemma {:induction false} OnInPeriod(on: seq<int>, period: nat, width: nat, k: nat, r: nat)
    requires PulseTrain(on, period, width) && r <= period && StartOf(k, period) + r <= |on|
    ensures CountOn(on, StartOf(k, period) + r) == CountOn(on, StartOf(k, period)) + Least(width, r)
  {
    if r == 0 {
    } else {
      OnInPeriod(on, period, width, k, r - 1);
      PhaseInPeriod(k, period, r - 1);
    }
  }

  lemma OnInTrain(on: seq<int>, period: nat, width: nat, k: nat, r: nat)
    requires PulseTrain(on, period, width) && r <= period && StartOf(k, period) + r <= |on|
    ensures CountOn(on, StartOf(k, period) + r) == k * width + Least(width, r)
  {
    OnInPeriods(on, period, width, k);
    OnInPeriod(on, period, width, k, r);
    StartIsProduct(k, width);
  }

  /** At the period itself every pulse but the first meets the one before it. */
  lemma PeriodCorrelation(on: seq<int>, period: nat, width: nat, count: nat, rest: nat)
    requires PulseTrain(on, period, width) && Binary(on) && Periodic(on, period)
    requires Splits(|on|, period, count, rest)
    ensures AutoCorrelation(on, period) == (count - 1) * width + Least(width, rest)
  {
    PeriodicMatches(on, period, |on| - period);
    OnInTrain(on, period, width, count - 1, rest);
  }

  // ----- which lag of a pulse train wins

  /** From lag 2 on, a lag within the pulse width does not beat lag 2, and a longer one not the period. */
  lemma LongerLagLoses(period: nat, width: nat, count: nat, rest: nat, lag: nat)
    requires 0 < width < period && rest < period && count >= 2 && 2 <= lag < period
    ensures lag < width ==> PulsePairs(period, width, count, rest, lag) <= PulsePairs(period, width, count, rest, 2)
    ensures lag >= width ==>
              PulsePairs(period, width, count, rest, lag) < (count - 1) * width + Least(width, rest)
  {
    var s, t := Positive(width - lag), Positive(width + lag - period);
    if lag >= width {
      if t > 0 {
        Smaller(count - 1, t, width - 1);
        OneLess(width, count - 1);
      } else {
        Smaller(count - 1, 1, width);
      }
    } else if t == 0 {
      Smaller(count, s, width - 2);
      Smaller(count - 1, 0, Positive(width + 2 - period));
    } else if width + 2 <= period {
      Smaller(count, s + t, width - 2);
      SplitProduct(count, s, t);
      OneLess(count, t);
    } else {
      SplitProduct(count, s, t);
      OneLess(count, t);
      SplitProduct(count, width - 2, 1);
      assert s + t == width - 1;
    }
  }

  lemma Smaller(k: int, a: int, b: int)
    requires k >= 0 && a <= b
    ensures k * a <= k * b
  {
    assert k * (b - a) >= 0;
  }

  /**
   When the period wins: pulses of one window, or pulses narrower than twice the whole periods, two
   more counted for a cut one. If the gaps are a single window, adjacent pulses compete as well.
   */
  predicate PeriodWins(period: nat, width: nat, count: nat, rest: nat) {
    || width == 1
    || (width + 2 <= period && width < 2 * count + Least(rest, 2))
    || (width + 1 == period && width < count + 1 + if rest >= 2 then 1 else 0)
  }

  lemma PeriodAgainstTwo(period: nat, width: nat, count: nat, rest: nat)
    requires 0 < width < period && rest < period && count >= 2 && period > 2
    ensures PulsePairs(period, width, count, rest, 2) < (count - 1) * width + Least(width, rest)
            <==> PeriodWins(period, width, count, rest)
  {
    OneLess(count, width);
    if width == 1 {
      assert PulsePairs(period, width, count, rest, 2) == 0;
    } else {
      SplitProduct(count, width - 2, 2);
    }
  }

  /** The best lag of a pulse train is its period if the period wins, and the shortest lag otherwise. */
  lemma PulseLag(on: seq<int>, period: nat, width: nat, count: nat, rest: nat, lag: nat)
    requires |on| == WINDOWS && PulseTrain(on, period, width) && BestLag(on, lag, 50)
    requires 2 <= period < 50 && Splits(WINDOWS, period, count, rest)
    ensures lag == if PeriodWins(period, width, count, rest) then period else 2
  {
    hide AutoCorrelation, PulsePairs, Splits, PeriodWins;
    PulsesRepeat(on, period, width);
    SplitParts(period, count, rest);
    PeriodCorrelation(on, period, width, count, rest);
    PeriodReported(on, period, lag);
    if period > 2 {
      PeriodAgainstTwo(period, width, count, rest);
      PulseCorrelation(on, period, width, count, rest, 2);
      forall l: nat | 2 <= l < period
        ensures AutoCorrelation(on, l) <= AutoCorrelation(on, 2) || AutoCorrelation(on, l) < AutoCorrelation(on, period)
      {
        PulseCorrelation(on, period, width, count, rest, l);
        LongerLagLoses(period, width, count, rest, l);
      }
      assert AutoCorrelation(on, 2) <= AutoCorrelation(on, lag);
    }
  }

  lemma SplitParts(period: nat, count: nat, rest: nat)
    requires Splits(WINDOWS, period, count, rest)
    ensures rest < period && count >= 2
  {
  }

  lemma SplitOfHundred(period: nat)
    requires 2 <= period < 50
    ensures Splits(WINDOWS, period, WINDOWS / period, WINDOWS % period)
  {
    var q := WINDOWS / period;
    StartIsProduct(q, period);
    if q < 2 {
      Smaller(period, q, 1);
    }
  }

  /** What is on in a pulse train over all windows. */
  function OnWindows(period: nat, width: nat): int
    requires period > 0
  {
    WINDOWS / period * width + Least(width, WINDOWS % period)
  }

  /**
   What the detector reports for a pulse train, in its period and width alone: a burst if fewer than 85
   windows are on; and then the period if the period wins, and two windows otherwise.
   */
  lemma PulseTrainReported(on: seq<int>, period: nat, width: nat, size: nat, burst: bool, duty: real, reported: nat)
    requires |on| == WINDOWS && PulseTrain(on, period, width) && 2 <= period < 50
    requires Reports(on, size, burst, duty, reported)
    ensures duty == OnWindows(period, width) as real / 100.0
    ensures burst <==> OnWindows(period, width) < 85
    ensures reported ==
            if !burst then 0
            else if PeriodWins(period, width, WINDOWS / period, WINDOWS % period) then period * size
            else 2 * size
  {
    hide BestLag, PulseTrain, PeriodWins;
    SplitOfHundred(period);
    OnInTrain(on, period, width, WINDOWS / period, WINDOWS % period);
    if burst {
      var lag: nat :| BestLag(on, lag, 50) && reported == lag * size;
      PulseLag(on, period, width, WINDOWS / period, WINDOWS % period, lag);
    }
  }

  // ----- every pattern is the pattern of some block

  /** One sample per window: one where the pattern is on, zero elsewhere. */
  function BlockOf(on: seq<int>): (x: seq<Complex>)
    ensures |x| == |on| && forall w :: 0 <= w < |x| ==> x[w] == Complex(on[w] as real, 0.0)
  {
    seq(|on|, w requires 0 <= w < |on| => Complex(on[w] as real, 0.0))
  }

  lemma OneSampleEnergy(z: Complex)
    ensures Energy([z]) == z.Norm()
  {
    assert [z][..0] == [] && Norms([z])[..0] == [];
    SumConstant(Norms([z]), z.Norm());
  }

  /** So every pattern with an on window reaches the detector: BlockOf is a block that produces it. */
  lemma PatternHasBlock(on: seq<int>, w: nat)
    requires |on| == WINDOWS && Binary(on) && w < WINDOWS && on[w] == 1
    ensures PatternOf(BlockOf(on)) == on
  {
    hide RealSums.Sum, Energy;
    var x, p := BlockOf(on), Powers(BlockOf(on), 1);
    forall v | 0 <= v < WINDOWS
      ensures p[v] == on[v] as real
    {
      assert Window(x, v, 1) == [x[v]];
      OneSampleEnergy(x[v]);
    }
    assert PeakOf(p) == 1.0 by {
      assert p[w] == 1.0;
    }
    assert OnOff(p) == on;
  }

  // ----- a pattern that is misreported

  /** Twenty windows on, twenty off. */
  ghost predicate WidePulses(on: seq<int>) {
    |on| == WINDOWS && forall w :: 0 <= w < WINDOWS ==> on[w] == if w < 20 || 40 <= w < 60 || 80 <= w then 1 else 0
  }

  lemma WideIsTrain(on: seq<int>)
    requires WidePulses(on)
    ensures PulseTrain(on, 40, 20)
  {
    forall w | 0 <= w < WINDOWS
      ensures Phase(w, 40) == if w < 40 then w else if w < 80 then w - 40 else w - 80
    {
      assert w >= 40 ==> Phase(w, 40) == Phase(w - 40, 40);
    }
  }

  /** Wide pulses defeat the estimate: this block repeats every 40 windows, and 2 are reported. */
  lemma WidePulsesMisreported(on: seq<int>, lag: nat)
    requires WidePulses(on) && BestLag(on, lag, 50)
    ensures PatternOf(BlockOf(on)) == on
    ensures Periodic(on, 40) && lag == 2
    ensures OnWindows(40, 20) < 85
  {
    hide PatternOf, BestLag, WidePulses;
    WideBasics(on);
    PatternHasBlock(on, 0);
    WideIsTrain(on);
    PulsesRepeat(on, 40, 20);
    SplitOfHundred(40);
    PulseLag(on, 40, 20, 2, 20, lag);
  }

  lemma WideBasics(on: seq<int>)
    requires WidePulses(on)
    ensures |on| == WINDOWS && Binary(on) && on[0] == 1
  {
  }
}
