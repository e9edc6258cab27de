/** Filling in the features of one block, and labelling it (extract, then classify). */
module Extraction {
  import opened RealSums
  import opened ComplexNumbers
  import opened RealFunctions
  import opened Angles
  import opened Classifier
  import Burst
  import ChirpRegression
  import Cumulants
  import CyclicPrefix
  import Envelope
  import PhaseStatistics
  import Spectrum

  /** Noise powers at or below this leave the SNR at 60 dB (1e-30). */
  const NOISE_GUARD: real := 1.0 / 1000000000000000.0 / 1000000000000000.0
  const TINY_RATIO: real := 1.0 / 10000000000.0 / 10000000000.0

  /** The features whose theory this model leaves out; they enter as measured. */
  datatype Measured = Measured(flatness: real, symbolRate: real, fhss: bool)

  /** What a feature structure holds before anything is extracted. */
  const DEFAULTS := Features(
    0.0, 0.0, 0.0, 0.0, 0.0, 0.0, 0.0, 0.0, 0.0, 0.0, 0.0, 0.0, 0.0, 0.0,
    false, 1.0, 0.0, false, 0, false, false, false, 0.0)

  function SnrOf(signal: real, noise: real, log10: real -> real): real {
    if noise > NOISE_GUARD then 10.0 * log10(signal / noise + TINY_RATIO) else 60.0
  }

  function WidthOf(lo: nat, hi: nat, bins: nat, sr: real): real
    requires bins > 0
  {
    (hi - lo) as real * sr / bins as real
  }

  /** lo..hi is the occupied band around the peak, and f has its width and its symmetry. */
  ghost predicate BandIn(f: Features, psd: seq<real>, peak: nat, lo: nat, hi: nat, sqrt: real -> real) {
    && Spectrum.FirstPeak(psd, peak)
    && Spectrum.Occupied(psd, peak, psd[peak] / 10.0, lo, hi)
    && Spectrum.Bounded(psd, psd[peak] / 10.0, lo, hi)
    && f.bandwidth == WidthOf(lo, hi, |psd|, f.sampleRate)
    && f.symmetry == Spectrum.SymmetryOf(psd, lo, hi, sqrt)
  }

  /** The parts of the features that are computed from the spectrum. */
  datatype SpectralPart = Powers | OccupiedBand

  ghost predicate Holds(f: Features, psd: seq<real>, log10: real -> real, sqrt: real -> real, part: SpectralPart)
    requires psd != []
  {
    match part
    case Powers => f.snr == SnrOf(Sum(psd) - Spectrum.NoisePower(psd), Spectrum.NoisePower(psd), log10)
    case OccupiedBand => exists peak: nat, lo: nat, hi: nat :: BandIn(f, psd, peak, lo, hi, sqrt)
  }

  /** The spectral features are those of the psd and of its occupied band. */
  ghost predicate SpectrumIn(f: Features, psd: seq<real>, log10: real -> real, sqrt: real -> real)
    requires psd != []
  {
    forall part :: Holds(f, psd, log10, sqrt, part)
  }

  /** The structural flags are those of the detectors; nothing ever detects direct-sequence spreading. */
  ghost predicate StructureIn(f: Features, x: seq<Complex>, c: Circle)
    requires c.pi > 0.0
  {
    && (f.ofdm <==> exists k: nat :: k < CyclicPrefix.CANDIDATES && CyclicPrefix.ScoreOf(x, k) > CyclicPrefix.THRESHOLD)
    && (f.ofdm ==> exists k: nat :: CyclicPrefix.FirstBest(x, k, CyclicPrefix.CANDIDATES)
                                    && f.fftSize == CyclicPrefix.FftSize(k))
    && f.chirp == ChirpIn(x, f.sampleRate, c)
    && !f.dsss
  }

  predicate ChirpIn(x: seq<Complex>, sr: real, c: Circle)
    requires c.pi > 0.0
  {
    var n := ChirpRegression.StepCount(x);
    if n < 10 then false
    else
      ChirpRegression.DenominatorPositive(n);
      ChirpRegression.IsChirp(ChirpRegression.InstantaneousFrequency(x, n, sr, c.turn, c.pi), sr)
  }

  lemma WidthBelowRate(lo: nat, hi: nat, bins: nat, sr: real)
    requires lo <= hi < bins && sr > 0.0
    ensures 0.0 <= WidthOf(lo, hi, bins, sr) < sr
  {
    WidthBounds((hi - lo) as real, bins as real, sr, (hi - lo) as real * sr, WidthOf(lo, hi, bins, sr));
  }

  lemma WidthBounds(d: real, n: real, sr: real, w: real, q: real)
    requires 0.0 <= d < n && sr > 0.0 && w == d * sr && q == w / n
    ensures 0.0 <= q < sr
  {
    ClearQuotient(q, w, n);
    PositiveProduct(n - d, sr, (n - d) * sr);
    ProductOfOrdered(0.0, d, 0.0, sr);
    OrderedByFactor(0.0, q, n);
    if sr <= q {
      ProductOfOrdered(sr, q, n, n);
    }
  }

  /** An extracted block's bandwidth is never as large as its sample rate. */
  lemma BandwidthBelowRate(f: Features, psd: seq<real>, log10: real -> real, sqrt: real -> real)
    requires psd != [] && SpectrumIn(f, psd, log10, sqrt) && f.sampleRate > 0.0
    ensures 0.0 <= f.bandwidth < f.sampleRate
  {
    hide Spectrum.SymmetryOf, Spectrum.NoisePower, WidthOf, Spectrum.Bounded, SnrOf;
    assert Holds(f, psd, log10, sqrt, OccupiedBand);
    var peak: nat, lo: nat, hi: nat :| BandIn(f, psd, peak, lo, hi, sqrt);
    WidthBelowRate(lo, hi, |psd|, f.sampleRate);
  }

  /**
   The SNR of a spectrum a fifth of whose bins are at its least value q, over n bins: with no power worth
   mentioning there, 60 dB whatever else it holds.
   */
  lemma SnrOverFloor(f: Features, psd: seq<real>, q: real, log10: real -> real, sqrt: real -> real)
    requires psd != [] && SpectrumIn(f, psd, log10, sqrt)
    requires forall i :: 0 <= i < |psd| ==> psd[i] >= q
    requires multiset(psd)[q] >= if |psd| < 5 then 1 else |psd| / 5
    ensures var floor := |psd| as real * q;
            f.snr == if floor > NOISE_GUARD then 10.0 * log10((Sum(psd) - floor) / floor + TINY_RATIO) else 60.0
  {
    hide Spectrum.NoisePower, RealSums.Sum;
    assert Holds(f, psd, log10, sqrt, Powers);
    Spectrum.QuietFifth(psd, q);
  }

  /** So a flat spectrum is 200 dB below the noise, but one without power passes for 60 dB above it. */
  lemma FlatSpectrum(f: Features, psd: seq<real>, q: real, log10: real -> real, sqrt: real -> real)
    requires psd != [] && SpectrumIn(f, psd, log10, sqrt) && log10(TINY_RATIO) == -20.0
    requires forall i :: 0 <= i < |psd| ==> psd[i] == q
    ensures f.snr == if |psd| as real * q > 1.0 / 1000000000000000.0 / 1000000000000000.0 then -200.0 else 60.0
    ensures q <= 0.0 ==> f.snr == 60.0
  {
    hide RealSums.Sum, SpectrumIn;
    Spectrum.CountWithin(psd, q);
    assert Spectrum.AllAre(psd, q);
    SumConstant(psd, q);
    SnrOverFloor(f, psd, q, log10, sqrt);
    NothingOver(|psd| as real * q);
    if q <= 0.0 {
      ProductOfOrdered(0.0, -q, 0.0, |psd| as real);
    }
  }

  lemma NothingOver(floor: real)
    ensures floor > 0.0 ==> (floor - floor) / floor + TINY_RATIO == TINY_RATIO
  {
  }

  /** The bandwidth is that of the bins from the lowest to the highest of the band, at sr / n hertz a bin. */
  lemma BandwidthInBins(f: Features, psd: seq<real>, log10: real -> real, sqrt: real -> real)
    returns (peak: nat, lo: nat, hi: nat)
    requires psd != [] && SpectrumIn(f, psd, log10, sqrt)
    ensures lo <= peak <= hi < |psd| && forall i :: 0 <= i < |psd| ==> psd[i] <= psd[peak]
    ensures forall i :: lo <= i <= hi && i != peak ==> psd[i] > psd[peak] / 10.0
    ensures (lo > 0 ==> psd[lo - 1] <= psd[peak] / 10.0) && (hi < |psd| - 1 ==> psd[hi + 1] <= psd[peak] / 10.0)
    ensures f.bandwidth * |psd| as real == (hi - lo) as real * f.sampleRate
  {
    hide Spectrum.SymmetryOf, Spectrum.NoisePower, SnrOf, WidthOf;
    assert Holds(f, psd, log10, sqrt, OccupiedBand);
    peak, lo, hi :| BandIn(f, psd, peak, lo, hi, sqrt);
    WidthInBins(lo, hi, |psd|, f.sampleRate);
  }

  lemma WidthInBins(lo: nat, hi: nat, bins: nat, sr: real)
    requires bins > 0
    ensures WidthOf(lo, hi, bins, sr) * bins as real == (hi - lo) as real * sr
  {
    ClearQuotient(WidthOf(lo, hi, bins, sr), (hi - lo) as real * sr, bins as real);
  }

  // ----- the extraction, part by part

  method ExtractSpectrum(g: Features, psd: seq<real>, log10: real -> real, sqrt: real -> real) returns (f: Features)
    requires psd != [] && IsSquareRoot(sqrt)
    ensures SpectrumIn(f, psd, log10, sqrt)
    ensures f == g.(snr := f.snr, bandwidth := f.bandwidth, symmetry := f.symmetry)
  {
    hide IsSquareRoot, Spectrum.SymmetryOf, Spectrum.NoisePower, Spectrum.Flat, RealSums.Sum, WidthOf, SnrOf;
    var total, noise, signal := Spectrum.MeasureNoise(psd);
    var peak, lo, hi := Spectrum.OccupiedBand(psd);
    var symmetry := Spectrum.SpectralSymmetry(psd, lo, hi, sqrt);
    f := g.(snr := SnrOf(signal, noise, log10), bandwidth := WidthOf(lo, hi, |psd|, g.sampleRate),
    symmetry := symmetry);
    assert BandIn(f, psd, peak, lo, hi, sqrt);
  }

  method ExtractSamples(g: Features, x: seq<Complex>, c: Circle, sqrt: real -> real) returns (f: Features)
    requires x != [] && c.pi > 0.0 && IsSquareRoot(sqrt) && g.sampleRate > 0.0
    ensures ExtractedFrom(f, x, c, sqrt)
    ensures f == g.(varianceNorm := f.varianceNorm, amIndex := f.amIndex, freqMean := f.freqMean, freqStd := f.freqStd,
                    phaseStd := f.phaseStd, fmDeviation := f.fmDeviation, c40 := f.c40, c42 := f.c42,
                    isBurst := f.isBurst, burstDuty := f.burstDuty, burstPeriod := f.burstPeriod)
  {
    hide IsSquareRoot, Envelope.StatsOf, Cumulants.CumulantsOf, PhaseStatistics.FrequencyMean,
      PhaseStatistics.FrequencyStd, PhaseStatistics.PhaseStd, Burst.Reports;
    var stats, _ := Envelope.MeasureEnvelope(x, sqrt);
    f := g.(varianceNorm := stats.varianceNorm, amIndex := stats.amIndex);
    var mean, std := PhaseStatistics.MeasureFrequency(x, g.sampleRate, c, sqrt);
    var phaseStd := PhaseStatistics.MeasurePhase(x, c, sqrt);
    f := f.(freqMean := mean, freqStd := std, phaseStd := phaseStd, fmDeviation := std);
    var c40r, c40i, c41r, c42 := Cumulants.ComputeCumulants(x);
    var burst, duty, period := Burst.DetectBurst(x);
    PeriodPositive(period, g.sampleRate);
    f := f.(c40 := c40r, c42 := c42, isBurst := burst, burstDuty := duty,
    burstPeriod := if period > 0 then period as real / g.sampleRate else 0.0);
    assert BurstIn(f, x, period);
  }

  lemma PeriodPositive(period: nat, rate: real)
    requires rate > 0.0
    ensures period > 0 ==> period as real / rate > 0.0
  {
  }

  method ExtractStructure(g: Features, x: seq<Complex>, c: Circle) returns (f: Features)
    requires c.pi > 0.0 && !g.dsss
    ensures StructureIn(f, x, c)
    ensures f == g.(ofdm := f.ofdm, fftSize := f.fftSize, chirp := f.chirp)
  {
    hide CyclicPrefix.ScoreOf, ChirpRegression.IsChirp, ChirpRegression.Denominator, CyclicPrefix.FirstBest;
    var ofdm, fftSize, ratio := CyclicPrefix.DetectOfdm(x, 0, 0.0);
    var chirp, rate := ChirpRegression.DetectChirp(x, g.sampleRate, c.turn, c.pi, 0.0);
    f := g.(ofdm := ofdm, fftSize := fftSize, chirp := chirp);
  }

  /** Blocks shorter than one transform keep the default features; the psd has as many bins as a transform. */
  method Extract(x: seq<Complex>, psd: seq<real>, sampleRate: real, centerFreq: real, measured: Measured,
                 c: Circle, sqrt: real -> real, log10: real -> real)
    returns (f: Features)
    requires psd != [] && c.pi > 0.0 && IsSquareRoot(sqrt) && sampleRate > 0.0
    ensures f.sampleRate == sampleRate && f.centerFreq == centerFreq && !f.dsss
    ensures |x| < |psd| ==> f == DEFAULTS.(sampleRate := sampleRate, centerFreq := centerFreq)
    ensures |x| >= |psd| ==>
              && SpectrumIn(f, psd, log10, sqrt) && ExtractedFrom(f, x, c, sqrt) && StructureIn(f, x, c)
              && Measured(f.flatness, f.symbolRate, f.fhss) == measured
  {
    f := DEFAULTS.(sampleRate := sampleRate, centerFreq := centerFreq);
    if |x| < |psd| {
      return;
    }
    hide IsSquareRoot;
    var spectral := ExtractSpectrum(f, psd, log10, sqrt);
    var sampled := ExtractSamples(spectral.(flatness := measured.flatness), x, c, sqrt);
    f := ExtractStructure(sampled.(symbolRate := measured.symbolRate), x, c);
    f := f.(fhss := measured.fhss);
    KeepsSpectrum(spectral, f, psd, log10, sqrt);
    KeepsSamples(sampled, f, x, c, sqrt);
  }

  lemma KeepsSpectrum(g: Features, f: Features, psd: seq<real>, log10: real -> real, sqrt: real -> real)
    requires psd != [] && SpectrumIn(g, psd, log10, sqrt)
    requires f.snr == g.snr && f.bandwidth == g.bandwidth && f.symmetry == g.symmetry && f.sampleRate == g.sampleRate
    ensures SpectrumIn(f, psd, log10, sqrt)
  {
    hide SnrOf, Spectrum.SymmetryOf, Spectrum.NoisePower, WidthOf, Spectrum.Bounded, Spectrum.Occupied;
    assert Holds(g, psd, log10, sqrt, Powers) && Holds(g, psd, log10, sqrt, OccupiedBand);
    var peak: nat, lo: nat, hi: nat :| BandIn(g, psd, peak, lo, hi, sqrt);
    assert BandIn(f, psd, peak, lo, hi, sqrt);
  }

  lemma KeepsSamples(g: Features, f: Features, x: seq<Complex>, c: Circle, sqrt: real -> real)
    requires x != [] && c.pi > 0.0 && ExtractedFrom(g, x, c, sqrt)
    requires f == g.(symbolRate := f.symbolRate, ofdm := f.ofdm, fftSize := f.fftSize, chirp := f.chirp, fhss := f.fhss)
    ensures ExtractedFrom(f, x, c, sqrt)
  {
    hide Envelope.StatsOf, Cumulants.CumulantsOf, PhaseStatistics.FrequencyMean, PhaseStatistics.FrequencyStd,
      PhaseStatistics.PhaseStd;
    forall part
      ensures Stores(f, x, c, sqrt, part)
    {
      assert Stores(g, x, c, sqrt, part);
      if part == Bursts {
        var period: nat :| BurstIn(g, x, period);
        assert BurstIn(f, x, period);
      }
    }
  }

  // ----- extraction and classification together

  /**
   For every block: the TDMA flag is the burst flag, exactly the classified ones carry a label, no loud
   block is AM_DSB_SC, and none is ever DSSS.
   */
  method AnalyseBlock(x: seq<Complex>, psd: seq<real>, sampleRate: real, centerFreq: real, measured: Measured,
                      c: Circle, sqrt: real -> real, log10: real -> real, log2: int -> real, r: ResultLayers)
    requires psd != [] && c.pi > 0.0 && IsSquareRoot(sqrt) && sampleRate > 0.0
    modifies r
    ensures r.isTdma == r.isBurst
    ensures r.classified <==> r.analogModulation != NoModulation || r.digitalModulation != NoModulation
    ensures r.classified ==> |x| >= |psd| && r.snr >= 5.0
    ensures r.analogModulation == AM_DSB_SC ==> x != [] && !Loud(x, sqrt)
    ensures r.digitalModulation != DSSS && !r.isDsss
  {
    hide SpectrumIn, ExtractedFrom, StructureIn, Loud, IsSquareRoot, VerdictOf;
    var f := Extract(x, psd, sampleRate, centerFreq, measured, c, sqrt, log10);
    if |x| >= |psd| {
      SuppressedCarrierMeansSilent(f, x, c, sqrt);
      BurstHasPeriod(f, x, c, sqrt);
    }
    ExactlyOneLabel(f);
    NeverSpread(f);
    Classify(f, r, log2);
  }

  lemma BurstHasPeriod(f: Features, x: seq<Complex>, c: Circle, sqrt: real -> real)
    requires x != [] && c.pi > 0.0 && ExtractedFrom(f, x, c, sqrt)
    ensures f.isBurst <==> f.burstPeriod > 0.0
  {
    assert Stores(f, x, c, sqrt, Bursts);
  }

  lemma NeverSpread(f: Features)
    requires !f.dsss
    ensures VerdictOf(f).digital != DSSS
  {
  }
}
