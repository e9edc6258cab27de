/** Noise floor, occupied band and spectral symmetry of a power spectrum (extract). */
module Spectrum {
  import opened RealSums
  import opened RealFunctions
  import opened Sorting

  // ----- noise floor

  /** The bottom fifth of the bins, but at least one. */
  function NoiseBins(n: nat): (m: nat)
    ensures m >= 1 && (n >= 1 ==> m <= n) && (n >= 2 ==> m < n)
  {
    if n / 5 > 1 then n / 5 else 1
  }

  /** The spectrum with every bin at the mean of the quietest bins. */
  function NoisePower(psd: seq<real>): real
    requires psd != []
  {
    Spread(Sum(Sorted(psd)[..NoiseBins(|psd|)]), NoiseBins(|psd|) as real, |psd| as real)
  }

  /** The mean p/m of m values, taken n times. */
  function Spread(p: real, m: real, n: real): real
    requires m > 0.0
  {
    p / m * n
  }

  ghost predicate Flat(psd: seq<real>) {
    forall i, j :: 0 <= i < |psd| && 0 <= j < |psd| ==> psd[i] == psd[j]
  }

  // Comparisons of a sum p of n values with n times a bound t.

  predicate AtMost(p: real, n: real, t: real) { p <= n * t }
  predicate Below(p: real, n: real, t: real) { p < n * t }
  predicate AtLeast(p: real, n: real, t: real) { p >= n * t }
  predicate Above(p: real, n: real, t: real) { p > n * t }

  lemma OneMoreBelow(p: real, v: real, n: real, t: real)
    requires v <= t && AtMost(p, n, t)
    ensures AtMost(p + v, n + 1.0, t)
    ensures v < t || Below(p, n, t) ==> Below(p + v, n + 1.0, t)
  {
  }

  lemma OneMoreAbove(p: real, v: real, n: real, t: real)
    requires v >= t && AtLeast(p, n, t)
    ensures AtLeast(p + v, n + 1.0, t)
    ensures v > t || Above(p, n, t) ==> Above(p + v, n + 1.0, t)
  {
  }

  lemma {:induction false} SumAtMost(s: seq<real>, n: nat, t: real)
    requires |s| == n && forall i :: 0 <= i < n ==> s[i] <= t
    ensures AtMost(Sum(s), n as real, t)
    ensures (exists i :: 0 <= i < n && s[i] < t) ==> Below(Sum(s), n as real, t)
  {
    if n == 0 {
    } else {
      hide AtMost, Below;
      SumAtMost(s[..n - 1], n - 1, t);
      OneMoreBelow(Sum(s[..n - 1]), s[n - 1], (n - 1) as real, t);
      assert forall i :: 0 <= i < n - 1 ==> s[..n - 1][i] == s[i];
    }
  }

  lemma {:induction false} SumAtLeast(s: seq<real>, n: nat, t: real)
    requires |s| == n && forall i :: 0 <= i < n ==> s[i] >= t
    ensures AtLeast(Sum(s), n as real, t)
    ensures (exists i :: 0 <= i < n && s[i] > t) ==> Above(Sum(s), n as real, t)
  {
    if n == 0 {
    } else {
      hide AtLeast, Above;
      SumAtLeast(s[..n - 1], n - 1, t);
      OneMoreAbove(Sum(s[..n - 1]), s[n - 1], (n - 1) as real, t);
      assert forall i :: 0 <= i < n - 1 ==> s[..n - 1][i] == s[i];
    }
  }

  lemma NotFlatWhenSorted(s: seq<real>)
    requires Ascending(s) && s != []
    ensures Flat(s) <==> s[0] == s[|s| - 1]
  {
    if s[0] == s[|s| - 1] {
      forall i | 0 <= i < |s|
        ensures s[i] == s[0]
      {
        assert s[0] <= s[i] <= s[|s| - 1];
      }
    }
  }

  lemma FlatPermutation(a: seq<real>, b: seq<real>)
    requires multiset(a) == multiset(b) && Flat(a)
    ensures Flat(b)
  {
    forall i, j | 0 <= i < |b| && 0 <= j < |b|
      ensures b[i] == b[j]
    {
      assert b[i] in multiset(b) && b[j] in multiset(b);
      assert b[i] in multiset(a) && b[j] in multiset(a);
    }
  }

  /** The sums p, r of the m lowest and the k other values, when t separates the two groups. */
  predicate Separated(p: real, r: real, t: real, m: real, k: real) {
    AtMost(p, m, t) && AtLeast(r, k, t)
  }

  predicate StrictlySeparated(p: real, r: real, t: real, m: real, k: real) {
    Below(p, m, t) || Above(r, k, t)
  }

  /** n*p <= m*total says that the mean of the lowest m values is at most the mean of all n. */
  predicate MeanAtMost(p: real, m: real, total: real, n: real) {
    n * p <= m * total
  }

  predicate MeanEqual(p: real, m: real, total: real, n: real) {
    n * p == m * total
  }

  lemma SplitMean(p: real, r: real, t: real, m: real, k: real)
    requires m > 0.0 && k > 0.0 && Separated(p, r, t, m, k)
    ensures MeanAtMost(p, m, p + r, m + k)
    ensures StrictlySeparated(p, r, t, m, k) ==> !MeanEqual(p, m, p + r, m + k)
  {
    var a, b := m * t - p, r - k * t;
    assert m * (p + r) - (m + k) * p == k * a + m * b;
    var ka, mb := k * a, m * b;
    assert ka >= 0.0 && mb >= 0.0;
    if a > 0.0 {
      PositiveProduct(k, a, ka);
    }
    if b > 0.0 {
      PositiveProduct(m, b, mb);
    }
  }

  lemma SortedGroups(s: seq<real>, m: nat, k: nat, t: real)
    requires Ascending(s) && 1 <= m && k >= 1 && m + k == |s| && t == s[m - 1]
    ensures Separated(Sum(s[..m]), Sum(s[m..]), t, m as real, k as real)
    ensures !Flat(s) ==> StrictlySeparated(Sum(s[..m]), Sum(s[m..]), t, m as real, k as real)
  {
    hide RealSums.Sum, AtMost, Below, AtLeast, Above;
    SumAtMost(s[..m], m, t);
    SumAtLeast(s[m..], k, t);
    if !Flat(s) {
      NotFlatWhenSorted(s);
      assert s[..m][0] == s[0] && s[m..][k - 1] == s[|s| - 1];
    }
  }

  lemma FlatGroups(s: seq<real>, m: nat)
    requires Flat(s) && 1 <= m <= |s|
    ensures MeanEqual(Sum(s[..m]), m as real, Sum(s), |s| as real)
  {
    hide RealSums.Sum, MeanEqual;
    FlatMean(Sum(s[..m]), Sum(s), m as real, |s| as real, s[0]) by {
      SumConstant(s, s[0]);
      SumConstant(s[..m], s[0]);
    }
  }

  lemma FlatMean(p: real, total: real, m: real, n: real, v: real)
    requires p == m * v && total == n * v
    ensures MeanEqual(p, m, total, n)
  {
  }

  lemma SumSplit(s: seq<real>, m: nat)
    requires m <= |s|
    ensures Sum(s) == Sum(s[..m]) + Sum(s[m..])
  {
    SumAppend(s[..m], s[m..]);
    assert s == s[..m] + s[m..];
  }

  /** The mean of the lowest values is at most the mean of all, and less unless all are equal. */
  lemma SortedPrefixMean(s: seq<real>, m: nat)
    requires Ascending(s) && 1 <= m < |s|
    ensures MeanAtMost(Sum(s[..m]), m as real, Sum(s), |s| as real)
    ensures MeanEqual(Sum(s[..m]), m as real, Sum(s), |s| as real) <==> Flat(s)
  {
    hide *;
    var k := |s| - m;
    SortedGroups(s, m, k, s[m - 1]);
    SumSplit(s, m);
    SplitMean(Sum(s[..m]), Sum(s[m..]), s[m - 1], m as real, k as real);
    assert |s| as real == m as real + k as real;
    if Flat(s) {
      FlatGroups(s, m);
    }
  }

  lemma ScaledPrefix(p: real, t: real, m: real, n: real)
    requires m > 0.0
    ensures Spread(p, m, n) <= t <==> MeanAtMost(p, m, t, n)
    ensures Spread(p, m, n) == t <==> MeanEqual(p, m, t, n)
  {
    var u, q := p / m, Spread(p, m, n);
    assert u * m == p;
    assert n * p == m * q;
    if q < t {
      PositiveProduct(m, t - q, m * t - n * p);
    } else if q > t {
      PositiveProduct(m, q - t, n * p - m * t);
    }
  }

  lemma SamePermutationFlat(a: seq<real>, b: seq<real>)
    requires multiset(a) == multiset(b)
    ensures Flat(a) <==> Flat(b)
  {
    if Flat(a) {
      FlatPermutation(a, b);
    }
    if Flat(b) {
      FlatPermutation(b, a);
    }
  }

  lemma WholePrefix(s: seq<real>)
    requires |s| == 1
    ensures MeanEqual(Sum(s[..1]), 1.0, Sum(s), 1.0) && Flat(s)
  {
    assert s[..1] == s;
  }

  lemma NoisePowerMeaning(psd: seq<real>, s: seq<real>, m: nat)
    requires psd != [] && s == Sorted(psd) && m == NoiseBins(|psd|)
    ensures |s| == |psd|
    ensures NoisePower(psd) <= Sum(s) <==> MeanAtMost(Sum(s[..m]), m as real, Sum(s), |s| as real)
    ensures NoisePower(psd) == Sum(s) <==> MeanEqual(Sum(s[..m]), m as real, Sum(s), |s| as real)
  {
    hide RealSums.Sum, Sorted, NoiseBins, MeanAtMost, MeanEqual, Spread;
    ScaledPrefix(Sum(s[..m]), Sum(s), m as real, |s| as real);
  }

  /**
   The noise power never exceeds the total power, so clamping the signal power at zero never
   fires; and the signal power vanishes exactly for a flat spectrum.
   */
  lemma NoiseWithinTotal(psd: seq<real>)
    requires psd != []
    ensures NoisePower(psd) <= Sum(psd)
    ensures NoisePower(psd) == Sum(psd) <==> Flat(psd)
  {
    hide RealSums.Sum, Sorted, NoiseBins, MeanAtMost, MeanEqual, NoisePower, Flat, Ascending;
    var s, m := Sorted(psd), NoiseBins(|psd|);
    NoisePowerMeaning(psd, s, m);
    SumPermutation(s, psd);
    SamePermutationFlat(s, psd);
    if |psd| >= 2 {
      SortedPrefixMean(s, m);
    } else {
      WholePrefix(s);
      MeanEqualIsAtMost(Sum(s[..m]), m as real, Sum(s), |s| as real);
    }
  }

  lemma MeanEqualIsAtMost(p: real, m: real, total: real, n: real)
    requires MeanEqual(p, m, total, n)
    ensures MeanAtMost(p, m, total, n)
  {
  }

  // How often the least value must occur to be the noise floor.

  ghost predicate AllAre(s: seq<real>, q: real) {
    forall i :: 0 <= i < |s| ==> s[i] == q
  }

  ghost predicate NoneBelow(s: seq<real>, q: real) {
    forall i :: 0 <= i < |s| ==> s[i] >= q
  }

  lemma {:induction false} CountWithin(s: seq<real>, q: real)
    ensures multiset(s)[q] <= |s|
    ensures multiset(s)[q] == |s| <==> AllAre(s, q)
  {
    if s == [] {
    } else {
      var n := |s| - 1;
      CountWithin(s[..n], q);
      assert s == s[..n] + [s[n]];
      assert AllAre(s, q) <==> AllAre(s[..n], q) && s[n] == q;
    }
  }

  lemma CountSplits(s: seq<real>, i: nat, q: real)
    requires i <= |s|
    ensures multiset(s)[q] == multiset(s[..i])[q] + multiset(s[i..])[q]
  {
    assert s == s[..i] + s[i..];
  }

  lemma NotAfter(s: seq<real>, i: nat, q: real)
    requires Ascending(s) && i < |s| && s[i] > q
    ensures multiset(s[i..])[q] == 0
  {
    var t := s[i..];
    assert forall j :: 0 <= j < |t| ==> t[j] != q;
    assert q !in t;
  }

  lemma LeastValuesFirst(s: seq<real>, m: nat, q: real)
    requires Ascending(s) && m <= |s| && NoneBelow(s, q)
    ensures multiset(s)[q] >= m <==> AllAre(s[..m], q)
  {
    CountWithin(s[..m], q);
    if AllAre(s[..m], q) {
      CountSplits(s, m, q);
    } else {
      var i :| 0 <= i < m && s[..m][i] != q;
      CountSplits(s, i, q);
      CountWithin(s[..i], q);
      NotAfter(s, i, q);
    }
  }

  lemma SumOfLeast(s: seq<real>, q: real)
    requires NoneBelow(s, q)
    ensures Sum(s) == |s| as real * q <==> AllAre(s, q)
  {
    SumAtLeast(s, |s|, q);
    if AllAre(s, q) {
      SumConstant(s, q);
    }
  }

  lemma SpreadOfEqual(p: real, m: real, n: real, q: real)
    requires m > 0.0 && n > 0.0
    ensures Spread(p, m, n) == n * q <==> p == m * q
  {
    var u := p / m;
    ClearQuotient(u, p, m);
    if u * n == n * q {
      EqualByFactor(u, q, n);
    }
    if u * m == m * q {
      EqualByFactor(u, q, m);
    }
  }

  lemma SortedNoneBelow(psd: seq<real>, q: real)
    requires forall i :: 0 <= i < |psd| ==> psd[i] >= q
    ensures NoneBelow(Sorted(psd), q)
    ensures forall m :: 0 <= m <= |Sorted(psd)| ==> NoneBelow(Sorted(psd)[..m], q)
  {
    hide Sorted;
    var s := Sorted(psd);
    forall i | 0 <= i < |s|
      ensures s[i] >= q
    {
      assert s[i] in multiset(s) && s[i] in multiset(psd) && s[i] in psd;
    }
  }

  /**
   The least bin value q is the noise floor exactly if a fifth of the bins, or one if they are fewer than
   five, have it; nothing the other bins hold plays a part then.
   */
  lemma QuietFifth(psd: seq<real>, q: real)
    requires psd != [] && forall i :: 0 <= i < |psd| ==> psd[i] >= q
    ensures NoisePower(psd) == |psd| as real * q <==> multiset(psd)[q] >= if |psd| < 5 then 1 else |psd| / 5
  {
    hide RealSums.Sum, Sorted, Spread, NoneBelow, AllAre;
    var s, m := Sorted(psd), NoiseBins(|psd|);
    SortedNoneBelow(psd, q);
    LeastValuesFirst(s, m, q);
    SumOfLeast(s[..m], q);
    SpreadOfEqual(Sum(s[..m]), m as real, |psd| as real, q);
  }

  /** Total, noise and signal power of a spectrum, as extract forms them. */
  method MeasureNoise(psd: seq<real>) returns (totalPower: real, noisePower: real, signalPower: real)
    requires psd != []
    ensures totalPower == Sum(psd) && noisePower == NoisePower(psd)
    ensures signalPower == totalPower - noisePower >= 0.0
    ensures signalPower == 0.0 <==> Flat(psd)
  {
    hide RealSums.Sum, NoiseBins, Flat;
    totalPower := AddBins(psd, |psd|);
    var sortedPsd := StdSort(psd);
    SortedCopyIsUnique(sortedPsd, Sorted(psd));
    var noiseBins := NoiseBins(|psd|);
    var noiseSum := AddBins(sortedPsd, noiseBins);
    noisePower := Spread(noiseSum, noiseBins as real, |psd| as real);
    assert psd[..|psd|] == psd;
    assert noisePower == NoisePower(psd);
    signalPower := totalPower - noisePower;
    NoiseWithinTotal(psd);
    if signalPower < 0.0 {
      signalPower := 0.0;
    }
  }

  method AddBins(bins: seq<real>, n: nat) returns (total: real)
    requires n <= |bins|
    ensures total == Sum(bins[..n])
  {
    total := 0.0;
    for i := 0 to n
      invariant total == Sum(bins[..i])
    {
      SumStep(bins, i);
      total := total + bins[i];
    }
  }

  // ----- the occupied band

  /** The first bin no other bin exceeds, which is what max_element returns. */
  ghost predicate FirstPeak(psd: seq<real>, p: nat) {
    && p < |psd|
    && (forall i :: 0 <= i < |psd| ==> psd[i] <= psd[p])
    && (forall i :: 0 <= i < p ==> psd[i] < psd[p])
  }

  /** All bins of lo..hi other than the peak are above the threshold. */
  ghost predicate Occupied(psd: seq<real>, peak: nat, threshold: real, lo: nat, hi: nat) {
    && lo <= peak <= hi < |psd|
    && forall i :: lo <= i <= hi && i != peak ==> psd[i] > threshold
  }

  /** Neither neighbour of the run lo..hi is above the threshold. */
  ghost predicate Bounded(psd: seq<real>, threshold: real, lo: nat, hi: nat)
    requires lo <= hi < |psd|
  {
    && (lo > 0 ==> psd[lo - 1] <= threshold)
    && (hi < |psd| - 1 ==> psd[hi + 1] <= threshold)
  }

  method PeakBin(psd: seq<real>) returns (p: nat)
    requires psd != []
    ensures FirstPeak(psd, p)
  {
    p := 0;
    for i := 1 to |psd|
      invariant p < i
      invariant forall k :: 0 <= k < i ==> psd[k] <= psd[p]
      invariant forall k :: 0 <= k < p ==> psd[k] < psd[p]
    {
      if psd[p] < psd[i] {
        p := i;
      }
    }
  }

  /** Walk outwards from the peak while the next bin is within 10 dB of it. */
  method OccupiedBand(psd: seq<real>) returns (peak: nat, lo: nat, hi: nat)
    requires psd != []
    ensures FirstPeak(psd, peak)
    ensures Occupied(psd, peak, psd[peak] / 10.0, lo, hi)
    ensures Bounded(psd, psd[peak] / 10.0, lo, hi)
  {
    peak := PeakBin(psd);
    var threshold := psd[peak] / 10.0;
    lo, hi := peak, peak;
    while lo > 0 && psd[lo - 1] > threshold
      invariant Occupied(psd, peak, threshold, lo, hi)
    {
      lo := lo - 1;
    }
    while hi < |psd| - 1 && psd[hi + 1] > threshold
      invariant Occupied(psd, peak, threshold, lo, hi)
      decreases |psd| - hi
    {
      hi := hi + 1;
    }
  }

  /** Every run around the peak that stays above the threshold lies inside a bounded one. */
  lemma BandIsMaximal(psd: seq<real>, peak: nat, threshold: real, lo: nat, hi: nat, a: nat, b: nat)
    requires Occupied(psd, peak, threshold, lo, hi) && Bounded(psd, threshold, lo, hi)
    requires Occupied(psd, peak, threshold, a, b)
    ensures lo <= a && b <= hi
  {
  }

  /** So the band the walk reports is the only bounded run around the peak. */
  lemma BandIsUnique(psd: seq<real>, peak: nat, threshold: real, lo: nat, hi: nat, a: nat, b: nat)
    requires Occupied(psd, peak, threshold, lo, hi) && Bounded(psd, threshold, lo, hi)
    requires Occupied(psd, peak, threshold, a, b) && Bounded(psd, threshold, a, b)
    ensures lo == a && hi == b
  {
    BandIsMaximal(psd, peak, threshold, lo, hi, a, b);
    BandIsMaximal(psd, peak, threshold, a, b, lo, hi);
  }

  // ----- spectral symmetry

  /** Correlations are divided only when the product of spreads is above this (1e-20). */
  const CORRELATION_GUARD: real := 1.0 / 10000000000.0 / 10000000000.0

  /** The bins left of the centre, read outwards. */
  function LeftHalf(psd: seq<real>, center: nat, half: nat): (r: seq<real>)
    requires half <= center < |psd|
    ensures |r| == half && forall k :: 0 <= k < half ==> r[k] == psd[center - k - 1]
  {
    seq(half, k requires 0 <= k < half => psd[center - k - 1])
  }

  /** The bins right of the centre, read outwards. */
  function RightHalf(psd: seq<real>, center: nat, half: nat): (r: seq<real>)
    requires center + half < |psd|
    ensures |r| == half && forall k :: 0 <= k < half ==> r[k] == psd[center + k + 1]
  {
    seq(half, k requires 0 <= k < half => psd[center + k + 1])
  }

  /** The correlation coefficient of two deviation sequences; zero when either hardly varies. */
  function Coefficient(cov: real, denom: real): real {
    if denom > CORRELATION_GUARD then cov / denom else 0.0
  }

  function Product(a: real, b: real): real {
    a * b
  }

  function Clamp(v: real): real {
    var upper := if v < 1.0 then v else 1.0;
    if upper > -1.0 then upper else -1.0
  }

  function CoefficientOf(left: seq<real>, right: seq<real>, sqrt: real -> real): real
    requires |left| == |right| && left != []
  {
    var dl, dr := Deviations(left), Deviations(right);
    Coefficient(Dot(dl, dr), sqrt(Product(Dot(dl, dl), Dot(dr, dr))))
  }

  lemma HalvesInsideBand(lo: nat, hi: nat, half: nat, center: nat)
    requires lo <= hi && half == (hi - lo) / 2 && center == (lo + hi) / 2
    ensures lo <= center - half && center + half <= hi
  {
  }

  lemma CoefficientBound(cov: real, varL: real, varR: real, sqrt: real -> real)
    requires IsSquareRoot(sqrt) && varL >= 0.0 && varR >= 0.0 && cov * cov <= varL * varR
    ensures -1.0 <= Coefficient(cov, sqrt(Product(varL, varR))) <= 1.0
  {
    var p := Product(varL, varR);
    ProductOfOrdered(0.0, varL, 0.0, varR);
    var denom := sqrt(p);
    assert denom >= 0.0 && denom * denom == p;
    if denom > CORRELATION_GUARD {
      SquareOrder(cov, denom);
      SquareOrder(-cov, denom);
      QuotientBetween(cov, denom);
    }
  }

  /** By Cauchy-Schwarz the coefficient is in [-1, 1], so clamping it changes nothing. */
  lemma ClampNeverFires(left: seq<real>, right: seq<real>, sqrt: real -> real)
    requires |left| == |right| && left != [] && IsSquareRoot(sqrt)
    ensures -1.0 <= CoefficientOf(left, right, sqrt) <= 1.0
    ensures Clamp(CoefficientOf(left, right, sqrt)) == CoefficientOf(left, right, sqrt)
  {
    hide RealSums.Dot, Deviations, Coefficient, IsSquareRoot, Product;
    var dl, dr := Deviations(left), Deviations(right);
    CauchySchwarz(dl, dr);
    DotSelfNonNegative(dl);
    DotSelfNonNegative(dr);
    CoefficientBound(Dot(dl, dr), Dot(dl, dl), Dot(dr, dr), sqrt);
  }

  /** The coefficient times the geometric mean of the two variations is the covariation, or it is zero. */
  lemma CoefficientMeaning(left: seq<real>, right: seq<real>, sqrt: real -> real, p: real)
    requires |left| == |right| && left != []
    requires p == Dot(Deviations(left), Deviations(left)) * Dot(Deviations(right), Deviations(right))
    ensures if sqrt(p) > CORRELATION_GUARD
            then CoefficientOf(left, right, sqrt) * sqrt(p) == Dot(Deviations(left), Deviations(right))
            else CoefficientOf(left, right, sqrt) == 0.0
  {
    hide RealSums.Dot, Deviations, Product;
    var dl, dr := Deviations(left), Deviations(right);
    ProductMeaning(Dot(dl, dl), Dot(dr, dr), p);
    CoefficientCleared(Dot(dl, dr), sqrt(p));
  }

  lemma ProductMeaning(a: real, b: real, p: real)
    requires p == a * b
    ensures Product(a, b) == p
  {
  }

  lemma CoefficientCleared(cov: real, denom: real)
    ensures if denom > CORRELATION_GUARD then Coefficient(cov, denom) * denom == cov else Coefficient(cov, denom) == 0.0
  {
    if denom > CORRELATION_GUARD {
      ClearQuotient(Coefficient(cov, denom), cov, denom);
    }
  }

  // ----- what the symmetry of a band says about its shape

  /** The symmetry of the band lo..hi: how the bins left of its rounded centre correlate with those right of it. */
  function SymmetryOf(psd: seq<real>, lo: nat, hi: nat, sqrt: real -> real): real
    requires lo <= hi < |psd|
  {
    var half, center := (hi - lo) / 2, (lo + hi) / 2;
    if half == 0 then 1.0 else CoefficientOf(LeftHalf(psd, center, half), RightHalf(psd, center, half), sqrt)
  }

  ghost predicate Mirrored(psd: seq<real>, lo: nat, hi: nat) {
    lo <= hi < |psd| && forall i :: lo <= i <= hi ==> psd[i] == psd[lo + hi - i]
  }

  lemma SelfCoefficient(s: seq<real>, sqrt: real -> real)
    requires s != [] && IsSquareRoot(sqrt)
    ensures CoefficientOf(s, s, sqrt) == if Variation(s) > CORRELATION_GUARD then 1.0 else 0.0
  {
    hide RealSums.Dot, Deviations, IsSquareRoot, Product;
    DotSelfNonNegative(Deviations(s));
    SquareProduct(Variation(s));
    RootOfSquare(Variation(s), Product(Variation(s), Variation(s)), sqrt);
    if Variation(s) > CORRELATION_GUARD {
      SelfQuotient(Variation(s), sqrt(Product(Variation(s), Variation(s))));
    }
  }

  lemma SquareProduct(v: real)
    ensures Product(v, v) == v * v
  {
  }

  /**
   A mirrored band of even width has symmetry 1 exactly when it is a single bin or its halves vary
   enough to clear the guard; otherwise its symmetry is 0.
   */
  lemma MirrorBandIsSymmetric(psd: seq<real>, lo: nat, hi: nat, sqrt: real -> real)
    requires Mirrored(psd, lo, hi) && (hi - lo) % 2 == 0 && IsSquareRoot(sqrt)
    ensures var half, center := (hi - lo) / 2, (lo + hi) / 2;
            SymmetryOf(psd, lo, hi, sqrt) ==
            if half == 0 || Variation(LeftHalf(psd, center, half)) > CORRELATION_GUARD then 1.0 else 0.0
  {
    hide IsSquareRoot, CoefficientOf, Variation;
    var half, center := (hi - lo) / 2, (lo + hi) / 2;
    if half > 0 {
      var left, right := LeftHalf(psd, center, half), RightHalf(psd, center, half);
      forall k | 0 <= k < half
        ensures left[k] == right[k]
      {
        assert psd[center - k - 1] == psd[lo + hi - (center - k - 1)];
      }
      assert left == right;
      SelfCoefficient(left, sqrt);
    }
  }

  /**
   In a mirrored band of odd width the centre is rounded down, so the right half is the left one moved
   by a bin: what is computed is how the half correlates with its own shift.
   */
  lemma OddMirrorBandShifts(psd: seq<real>, lo: nat, hi: nat, sqrt: real -> real)
    requires Mirrored(psd, lo, hi) && (hi - lo) % 2 == 1 && hi - lo > 1
    ensures var half, center := (hi - lo) / 2, (lo + hi) / 2;
            SymmetryOf(psd, lo, hi, sqrt) ==
            CoefficientOf(LeftHalf(psd, center, half), LeftHalf(psd, center + 1, half), sqrt)
  {
    hide CoefficientOf;
    var half, center := (hi - lo) / 2, (lo + hi) / 2;
    var right, shifted := RightHalf(psd, center, half), LeftHalf(psd, center + 1, half);
    forall k | 0 <= k < half
      ensures right[k] == shifted[k]
    {
      assert psd[center + k + 1] == psd[lo + hi - (center + k + 1)];
    }
    assert right == shifted;
  }

  /** The two halves vary alike: one's deviations are a positive multiple of the other's. */
  ghost predicate VaryAlike(left: seq<real>, right: seq<real>)
    requires |left| == |right| && left != []
  {
    exists t :: t > 0.0 && Proportional(Deviations(left), Deviations(right), t)
  }

  predicate ClearsGuard(left: seq<real>, right: seq<real>, sqrt: real -> real)
    requires |left| == |right| && left != []
  {
    sqrt(Product(Variation(left), Variation(right))) > CORRELATION_GUARD
  }

  /** Exactly when any two halves have symmetry 1: they clear the guard and vary alike. */
  lemma PerfectSymmetry(left: seq<real>, right: seq<real>, sqrt: real -> real)
    requires |left| == |right| && left != [] && IsSquareRoot(sqrt)
    ensures CoefficientOf(left, right, sqrt) == 1.0 <==> ClearsGuard(left, right, sqrt) && VaryAlike(left, right)
  {
    hide RealSums.Dot, Deviations, IsSquareRoot, Proportional, Product;
    var dl, dr := Deviations(left), Deviations(right);
    var a, b, c := Dot(dl, dl), Dot(dr, dr), Dot(dl, dr);
    DotSelfNonNegative(dl);
    DotSelfNonNegative(dr);
    RootOfProduct(a, b, Product(a, b), sqrt);
    if ClearsGuard(left, right, sqrt) {
      if VaryAlike(left, right) {
        var t :| t > 0.0 && Proportional(dl, dr, t);
        ProportionalDots(dl, dr, t);
        AlikeSpreads(a, b, c, t, sqrt(Product(a, b)));
        SelfQuotient(c, sqrt(Product(a, b)));
      }
      if CoefficientOf(left, right, sqrt) == 1.0 {
        ClearQuotient(1.0, c, sqrt(Product(a, b)));
        TightSpreads(a, b, c, sqrt(Product(a, b)));
        TightMeansProportional(dl, dr, a, b, c);
        PositiveQuotient(c, b, c / b);
      }
    }
  }

  lemma RootOfProduct(a: real, b: real, p: real, sqrt: real -> real)
    requires IsSquareRoot(sqrt) && a >= 0.0 && b >= 0.0 && p == Product(a, b)
    ensures sqrt(p) >= 0.0 && sqrt(p) * sqrt(p) == a * b
  {
    ProductOfOrdered(0.0, a, 0.0, b);
    assert p >= 0.0;
  }

  /** If dl = t * dr, its products with itself and with dr are multiples of dr's with itself. */
  lemma ProportionalDots(dl: seq<real>, dr: seq<real>, t: real)
    requires Proportional(dl, dr, t)
    ensures Dot(dl, dl) == (t * t) * Dot(dr, dr) && Dot(dl, dr) == t * Dot(dr, dr)
  {
    hide RealSums.Sum;
    SquaresProportional(dr, dl, t);
    SumScale(Times(dl, dl), Times(dr, dr), t * t);
    forall i | 0 <= i < |dl|
      ensures Times(dl, dr)[i] == t * Times(dr, dr)[i]
    {
      OneFactor(dl[i], dr[i], t, Times(dl, dr)[i], Times(dr, dr)[i]);
    }
    SumScale(Times(dl, dr), Times(dr, dr), t);
  }

  lemma OneFactor(l: real, r: real, t: real, lr: real, rr: real)
    requires l == t * r && lr == l * r && rr == r * r
    ensures lr == t * rr
  {
  }

  lemma AlikeSpreads(a: real, b: real, c: real, t: real, root: real)
    requires t > 0.0 && b >= 0.0 && a == (t * t) * b && c == t * b && root >= 0.0 && root * root == a * b
    ensures root == c
  {
    ProductOfOrdered(0.0, t, 0.0, b);
    assert c * c == (t * b) * (t * b) == a * b;
    SquareOrder(root, c);
    SquareOrder(c, root);
  }

  lemma TightSpreads(a: real, b: real, c: real, root: real)
    requires a >= 0.0 && b >= 0.0 && root > CORRELATION_GUARD && root * root == a * b && c == root
    ensures b > 0.0 && c > 0.0 && c * c == a * b
  {
    SquareStrict(root, 0.0);
    NoFactor(a, b);
  }

  lemma NoFactor(a: real, b: real)
    ensures b == 0.0 ==> a * b == 0.0
  {
  }

  function Residue(l: real, r: real, b: real, c: real): real {
    b * l - c * r
  }

  function Residues(dl: seq<real>, dr: seq<real>, b: real, c: real): (e: seq<real>)
    requires |dl| == |dr|
    ensures |e| == |dl| && forall i :: 0 <= i < |e| ==> e[i] == Residue(dl[i], dr[i], b, c)
  {
    seq(|dl|, i requires 0 <= i < |dl| => Residue(dl[i], dr[i], b, c))
  }

  /** The equality case of Cauchy-Schwarz. */
  lemma TightMeansProportional(dl: seq<real>, dr: seq<real>, a: real, b: real, c: real)
    requires |dl| == |dr| && a == Dot(dl, dl) && b == Dot(dr, dr) && c == Dot(dl, dr)
    requires b > 0.0 && c * c == a * b
    ensures Proportional(dl, dr, c / b)
  {
    hide RealSums.Sum, Residue;
    var e := Residues(dl, dr, b, c);
    ResidueEnergy(dl, dr, a, b, c, e);
    SumNonNegative(Times(e, e));
    forall i | 0 <= i < |dl|
      ensures dl[i] == (c / b) * dr[i]
    {
      NoResidue(dl[i], dr[i], b, c, e[i], Times(e, e)[i], c / b);
    }
  }

  lemma NoResidue(l: real, r: real, b: real, c: real, e: real, ee: real, t: real)
    requires e == Residue(l, r, b, c) && ee == e * e && ee <= 0.0 && b > 0.0 && t == c / b
    ensures l == t * r
  {
    if e != 0.0 {
      NonZeroSquare(e, ee);
    }
    ClearQuotient(t, c, b);
    assert (t * r) * b == (t * b) * r;
    EqualByFactor(l, t * r, b);
  }

  lemma ResidueEnergy(dl: seq<real>, dr: seq<real>, a: real, b: real, c: real, e: seq<real>)
    requires |dl| == |dr| && a == Dot(dl, dl) && b == Dot(dr, dr) && c == Dot(dl, dr)
    requires c * c == a * b && e == Residues(dl, dr, b, c)
    ensures Sum(Times(e, e)) == 0.0
  {
    hide RealSums.Sum, Residue;
    var ll, lr, rr := Times(dl, dl), Times(dl, dr), Times(dr, dr);
    var mixed := seq(|dl|, i requires 0 <= i < |dl| => (b * b) * ll[i] + (-2.0 * b * c) * lr[i]);
    SumLinear(mixed, ll, lr, b * b, -2.0 * b * c);
    forall i | 0 <= i < |e|
      ensures Times(e, e)[i] == 1.0 * mixed[i] + (c * c) * rr[i]
    {
      ResidueSquare(dl[i], dr[i], b, c, e[i]);
    }
    SumLinear(Times(e, e), mixed, rr, 1.0, c * c);
    EnergyVanishes(a, b, c);
  }

  lemma ResidueSquare(l: real, r: real, b: real, c: real, e: real)
    requires e == Residue(l, r, b, c)
    ensures e * e == 1.0 * ((b * b) * (l * l) + (-2.0 * b * c) * (l * r)) + (c * c) * (r * r)
  {
  }

  lemma EnergyVanishes(a: real, b: real, c: real)
    requires c * c == a * b
    ensures 1.0 * ((b * b) * a + (-2.0 * b * c) * c) + (c * c) * b == 0.0
  {
    assert (b * b) * a == b * (c * c);
    assert (-2.0 * b * c) * c == -2.0 * (b * (c * c));
  }

  function OnLine(t: real, u: real, v: real): real {
    t * v + u * 1.0
  }

  /** Each left value is the same linear function of its right value. */
  ghost predicate LinearlyRelated(left: seq<real>, right: seq<real>, t: real, u: real) {
    |left| == |right| && forall k :: 0 <= k < |left| ==> left[k] == OnLine(t, u, right[k])
  }

  lemma RelatedMeans(left: seq<real>, right: seq<real>, t: real, u: real)
    requires LinearlyRelated(left, right, t, u) && left != []
    ensures Mean(left) == t * Mean(right) + u
  {
    hide RealSums.Sum, Mean;
    var ones := seq(|left|, k => 1.0);
    SumConstant(ones, 1.0);
    SumLinear(left, right, ones, t, u);
    MeanTimesCount(left);
    MeanTimesCount(right);
    MeansFromSums(Mean(left), Mean(right), Sum(left), Sum(right), |left| as real, t, u);
  }

  lemma MeansFromSums(m: real, w: real, a: real, b: real, n: real, t: real, u: real)
    requires n > 0.0 && m * n == a && w * n == b && a == t * b + u * n
    ensures m == t * w + u
  {
    assert (t * w + u) * n == t * (w * n) + u * n;
    EqualByFactor(m, t * w + u, n);
  }

  lemma RelatedFromDeviations(left: seq<real>, right: seq<real>, t: real, u: real)
    requires |left| == |right| && left != [] && u == Mean(left) - t * Mean(right)
    requires Proportional(Deviations(left), Deviations(right), t)
    ensures LinearlyRelated(left, right, t, u)
  {
    hide Mean, OnLine;
    forall k | 0 <= k < |left|
      ensures left[k] == OnLine(t, u, right[k])
    {
      FromDeviation(left[k], right[k], Mean(left), Mean(right), t, u, Deviations(left)[k], Deviations(right)[k]);
    }
  }

  /** Deviations are proportional exactly when the values themselves are linearly related. */
  lemma AlikeIsRelated(left: seq<real>, right: seq<real>)
    requires |left| == |right| && left != []
    ensures VaryAlike(left, right) <==> exists t, u :: t > 0.0 && LinearlyRelated(left, right, t, u)
  {
    hide Mean;
    if VaryAlike(left, right) {
      var t :| t > 0.0 && Proportional(Deviations(left), Deviations(right), t);
      RelatedFromDeviations(left, right, t, Mean(left) - t * Mean(right));
    }
    forall t, u | t > 0.0 && LinearlyRelated(left, right, t, u)
      ensures VaryAlike(left, right)
    {
      RelatedMeans(left, right, t, u);
      forall k | 0 <= k < |left|
        ensures Deviations(left)[k] == t * Deviations(right)[k]
      {
        ToDeviation(left[k], right[k], Mean(left), Mean(right), t, u, Deviations(left)[k], Deviations(right)[k]);
      }
      assert Proportional(Deviations(left), Deviations(right), t);
    }
  }

  lemma FromDeviation(l: real, r: real, ml: real, mr: real, t: real, u: real, dl: real, dr: real)
    requires dl == l - ml && dr == r - mr && dl == t * dr && u == ml - t * mr
    ensures l == OnLine(t, u, r)
  {
  }

  lemma ToDeviation(l: real, r: real, ml: real, mr: real, t: real, u: real, dl: real, dr: real)
    requires dl == l - ml && dr == r - mr && l == OnLine(t, u, r) && ml == t * mr + u
    ensures dl == t * dr
  {
  }

  /** From bin low up to the centre, each bin is the same linear function of the next one. */
  ghost predicate StepsLinearly(psd: seq<real>, low: nat, center: nat, t: real, u: real)
    requires center < |psd|
  {
    forall j :: low < j <= center ==> psd[j - 1] == OnLine(t, u, psd[j])
  }

  /** Some increasing linear rule does. */
  ghost predicate RampsToCenter(psd: seq<real>, low: nat, center: nat)
    requires center < |psd|
  {
    exists t, u :: t > 0.0 && StepsLinearly(psd, low, center, t, u)
  }

  lemma ShiftIsStep(psd: seq<real>, center: nat, half: nat, t: real, u: real)
    requires half <= center && center + 1 < |psd|
    ensures LinearlyRelated(LeftHalf(psd, center, half), LeftHalf(psd, center + 1, half), t, u)
            <==> StepsLinearly(psd, center - half, center, t, u)
  {
    hide OnLine;
    var left, shifted := LeftHalf(psd, center, half), LeftHalf(psd, center + 1, half);
    if LinearlyRelated(left, shifted, t, u) {
      forall j | center - half < j <= center
        ensures psd[j - 1] == OnLine(t, u, psd[j])
      {
        assert left[center - j] == OnLine(t, u, shifted[center - j]);
      }
    }
    if StepsLinearly(psd, center - half, center, t, u) {
      forall k | 0 <= k < half
        ensures left[k] == OnLine(t, u, shifted[k])
      {
        assert psd[(center - k) - 1] == OnLine(t, u, psd[center - k]);
      }
    }
  }

  /**
   Exactly when a mirrored band of odd width has symmetry 1: it has two bins, or the half and its shift
   clear the guard and each bin up to the centre is the same increasing linear function of the next one.
   */
  lemma OddMirrorBandIsSymmetric(psd: seq<real>, lo: nat, hi: nat, sqrt: real -> real)
    requires Mirrored(psd, lo, hi) && (hi - lo) % 2 == 1 && IsSquareRoot(sqrt)
    ensures hi - lo == 1 ==> SymmetryOf(psd, lo, hi, sqrt) == 1.0
    ensures hi - lo > 1 ==>
              var half, center := (hi - lo) / 2, (lo + hi) / 2;
              SymmetryOf(psd, lo, hi, sqrt) == 1.0 <==>
              && ClearsGuard(LeftHalf(psd, center, half), LeftHalf(psd, center + 1, half), sqrt)
              && RampsToCenter(psd, lo, center)
  {
    hide IsSquareRoot, CoefficientOf, ClearsGuard, VaryAlike, LinearlyRelated, StepsLinearly;
    var half, center := (hi - lo) / 2, (lo + hi) / 2;
    if hi - lo > 1 {
      var left, shifted := LeftHalf(psd, center, half), LeftHalf(psd, center + 1, half);
      OddMirrorBandShifts(psd, lo, hi, sqrt);
      PerfectSymmetry(left, shifted, sqrt);
      AlikeIsRelated(left, shifted);
      forall t, u
        ensures LinearlyRelated(left, shifted, t, u) <==> StepsLinearly(psd, lo, center, t, u)
      {
        ShiftIsStep(psd, center, half, t, u);
      }
    }
  }

  /** Some odd-width bands do have symmetry 1: here each bin up to the centre is the next one less 1. */
  lemma OddButSymmetric(psd: seq<real>, sqrt: real -> real)
    requires psd == [8.0, 9.0, 10.0, 10.0, 9.0, 8.0] && IsSquareRoot(sqrt)
    ensures FirstPeak(psd, 2) && Occupied(psd, 2, psd[2] / 10.0, 0, 5) && Bounded(psd, psd[2] / 10.0, 0, 5)
    ensures Mirrored(psd, 0, 5) && SymmetryOf(psd, 0, 5, sqrt) == 1.0
  {
    hide IsSquareRoot, ClearsGuard, CoefficientOf;
    assert LeftHalf(psd, 2, 2) == [9.0, 8.0] && LeftHalf(psd, 3, 2) == [10.0, 9.0];
    RampsClearGuard([9.0, 8.0], [10.0, 9.0], sqrt);
    assert StepsLinearly(psd, 0, 2, 1.0, -1.0);
    OddMirrorBandIsSymmetric(psd, 0, 5, sqrt);
  }

  lemma RampsClearGuard(left: seq<real>, right: seq<real>, sqrt: real -> real)
    requires left == [9.0, 8.0] && right == [10.0, 9.0] && IsSquareRoot(sqrt)
    ensures ClearsGuard(left, right, sqrt)
  {
    var dl, dr := Deviations(left), Deviations(right);
    PairSum(9.0, 8.0);
    PairSum(10.0, 9.0);
    assert dl == [0.5, -0.5] && dr == [0.5, -0.5];
    hide RealSums.Sum, Deviations, IsSquareRoot;
    assert Times(dl, dl) == [0.25, 0.25] && Times(dr, dr) == [0.25, 0.25];
    PairSum(0.25, 0.25);
    RootOfSquare(0.5, 0.25, sqrt);
  }

  /**
   A mirror-symmetric spectrum whose symmetry is as low as can be: the whole of it is the band found
   around its first peak, its width is odd, and its halves [5, 2] and [3, 5] vary in opposite ways.
   */
  lemma MirroredButAntisymmetric(psd: seq<real>, sqrt: real -> real)
    requires psd == [2.0, 5.0, 3.0, 3.0, 5.0, 2.0] && IsSquareRoot(sqrt)
    ensures FirstPeak(psd, 1) && Occupied(psd, 1, psd[1] / 10.0, 0, 5) && Bounded(psd, psd[1] / 10.0, 0, 5)
    ensures Mirrored(psd, 0, 5) && SymmetryOf(psd, 0, 5, sqrt) == -1.0
  {
    hide CoefficientOf, IsSquareRoot;
    assert LeftHalf(psd, 2, 2) == [5.0, 2.0] && RightHalf(psd, 2, 2) == [3.0, 5.0];
    OppositeHalves([5.0, 2.0], [3.0, 5.0], sqrt);
  }

  lemma OppositeHalves(left: seq<real>, right: seq<real>, sqrt: real -> real)
    requires left == [5.0, 2.0] && right == [3.0, 5.0] && IsSquareRoot(sqrt)
    ensures CoefficientOf(left, right, sqrt) == -1.0
  {
    var dl, dr := Deviations(left), Deviations(right);
    PairSum(5.0, 2.0);
    PairSum(3.0, 5.0);
    assert dl == [1.5, -1.5] && dr == [-1.0, 1.0];
    hide RealSums.Sum, Deviations, IsSquareRoot;
    assert Times(dl, dl) == [2.25, 2.25] && Times(dr, dr) == [1.0, 1.0] && Times(dl, dr) == [-1.5, -1.5];
    PairSum(2.25, 2.25);
    PairSum(1.0, 1.0);
    PairSum(-1.5, -1.5);
    RootOfSquare(3.0, 9.0, sqrt);
  }

  // ----- the measurement

  /** The spectral symmetry of the band lo..hi. */
  method SpectralSymmetry(psd: seq<real>, lo: nat, hi: nat, sqrt: real -> real) returns (symmetry: real)
    requires lo <= hi < |psd| && IsSquareRoot(sqrt)
    ensures -1.0 <= symmetry <= 1.0
    ensures symmetry == SymmetryOf(psd, lo, hi, sqrt)
    ensures lo <= (lo + hi) / 2 - (hi - lo) / 2 && (lo + hi) / 2 + (hi - lo) / 2 <= hi
  {
    var half := (hi - lo) / 2;
    if half == 0 {
      return 1.0;
    }
    var center := (lo + hi) / 2;
    HalvesInsideBand(lo, hi, half, center);
    var meanL, meanR := HalfMeans(psd, center, half);
    var cov, varL, varR := HalfMoments(psd, center, half, meanL, meanR);
    hide RealSums.Dot, RealSums.Sum, Deviations, LeftHalf, RightHalf, IsSquareRoot, Coefficient, Clamp, Product;
    symmetry := Coefficient(cov, sqrt(Product(varL, varR)));
    ClampNeverFires(LeftHalf(psd, center, half), RightHalf(psd, center, half), sqrt);
    symmetry := Clamp(symmetry);
  }

  method HalfMeans(psd: seq<real>, center: nat, half: nat) returns (meanL: real, meanR: real)
    requires 0 < half <= center && center + half < |psd|
    ensures meanL == Mean(LeftHalf(psd, center, half))
    ensures meanR == Mean(RightHalf(psd, center, half))
  {
    ghost var left, right := LeftHalf(psd, center, half), RightHalf(psd, center, half);
    meanL, meanR := 0.0, 0.0;
    for k := 0 to half
      invariant meanL == Sum(left[..k]) && meanR == Sum(right[..k])
    {
      SumStep(left, k);
      SumStep(right, k);
      meanL := meanL + psd[center - k - 1];
      meanR := meanR + psd[center + k + 1];
    }
    SumAll(left);
    SumAll(right);
    meanL, meanR := meanL / half as real, meanR / half as real;
  }

  method HalfMoments(psd: seq<real>, center: nat, half: nat, meanL: real, meanR: real)
    returns (cov: real, varL: real, varR: real)
    requires 0 < half <= center && center + half < |psd|
    requires meanL == Mean(LeftHalf(psd, center, half))
    requires meanR == Mean(RightHalf(psd, center, half))
    ensures var dl, dr := Deviations(LeftHalf(psd, center, half)), Deviations(RightHalf(psd, center, half));
            cov == Dot(dl, dr) && varL == Dot(dl, dl) && varR == Dot(dr, dr)
  {
    hide Mean, RealSums.Dot;
    ghost var dl, dr := Deviations(LeftHalf(psd, center, half)), Deviations(RightHalf(psd, center, half));
    cov, varL, varR := 0.0, 0.0, 0.0;
    DotStart(dl, dr);
    DotStart(dl, dl);
    DotStart(dr, dr);
    for k := 0 to half
      invariant cov == Dot(dl[..k], dr[..k])
      invariant varL == Dot(dl[..k], dl[..k]) && varR == Dot(dr[..k], dr[..k])
    {
      var l := psd[center - k - 1] - meanL;
      var r := psd[center + k + 1] - meanR;
      DotStep(dl, dr, k, l, r);
      DotStep(dl, dl, k, l, l);
      DotStep(dr, dr, k, r, r);
      cov := cov + l * r;
      varL := varL + l * l;
      varR := varR + r * r;
    }
  }
}
