/** From the extracted features to a modulation label (ModulationClassifier), over exact reals. */
module Classifier {
  import opened RealSums
  import opened ComplexNumbers
  import opened RealFunctions
  import opened Angles
  import Cumulants
  import Burst
  import Envelope
  import PhaseStatistics

  /** The features the classifier reads; the rest of the structure is not part of this model. */
  datatype Features = Features(
    centerFreq: real, bandwidth: real, snr: real, flatness: real, symmetry: real,
    varianceNorm: real, amIndex: real, freqMean: real, freqStd: real, phaseStd: real, fmDeviation: real,
    c40: real, c42: real, symbolRate: real,
    isBurst: bool, burstDuty: real, burstPeriod: real,
    ofdm: bool, fftSize: int, fhss: bool, dsss: bool, chirp: bool, sampleRate: real)

  /** The modulation strings; NoModulation is the empty string. */
  datatype Modulation =
    | NoModulation
    | FM_WB | FM_NB | PM | SSB_USB | SSB_LSB | AM_DSB_SC | CW | AM_DSB_LC
    | CSS | OFDM | FHSS | DSSS
    | GMSK | FSK | BPSK | QPSK | PSK8 | PSK | QAM16 | QAM64 | QAM32

  datatype LineCode = NoLineCode | Manchester | NRZ

  datatype RejectReason = NoReason | SnrTooLow

  predicate Near(v: real, target: real, tolerance: real) {
    -tolerance < v - target < tolerance
  }

  predicate LooksFm(f: Features) {
    f.fmDeviation > f.bandwidth * 0.1 && f.varianceNorm < 0.1
  }

  predicate LooksPm(f: Features) {
    f.phaseStd > 0.3 && f.varianceNorm < 0.15 && f.freqStd < f.bandwidth * 0.1
  }

  predicate LooksAm(f: Features) {
    f.varianceNorm > 0.25 && f.fmDeviation < f.bandwidth / 4.0
  }

  predicate IsAnalog(f: Features) {
    LooksAm(f) || LooksFm(f) || LooksPm(f)
  }

  predicate IsConstantEnvelope(f: Features) {
    f.varianceNorm < 0.05
  }

  /** No earlier test of the tree has settled the label. */
  predicate Undecided(f: Features) {
    f.snr >= 5.0 && !f.chirp && !f.ofdm && !f.fhss && !f.dsss
  }

  // ----- the decision tree

  function AnalogLabel(f: Features): (Modulation, real) {
    if LooksFm(f) then (if f.fmDeviation > 50000.0 then FM_WB else FM_NB, f.fmDeviation)
    else if LooksPm(f) then (PM, f.phaseStd)
    else if f.amIndex > 0.1 && f.symmetry < 0.5 then (if f.freqMean > 0.0 then SSB_USB else SSB_LSB, f.amIndex)
    else if f.amIndex < 0.05 && f.varianceNorm > 0.25 then (AM_DSB_SC, f.amIndex)
    else if f.flatness > 0.8 || (f.isBurst && f.burstDuty < 0.6) then (CW, 0.0)
    else (AM_DSB_LC, f.amIndex)
  }

  function ConstantEnvelopeLabel(f: Features): (Modulation, int) {
    if f.flatness < 0.2 && f.varianceNorm < 0.05 then (GMSK, 2)
    else if Near(f.c42, -2.0, 0.5) && Near(f.c40, 0.0, 0.3) then (FSK, 2)
    else if Near(f.c40, -2.0, 0.4) && f.c42 < -1.5 then (BPSK, 2)
    else if Near(f.c40, -2.0, 0.5) && Near(f.c42, -1.0, 0.6) then (QPSK, 4)
    else if Near(f.c40, 0.0, 0.4) && Near(f.c42, -1.0, 0.4) then (PSK8, 8)
    else (PSK, 2)
  }

  function VariableAmplitudeLabel(f: Features): (Modulation, int) {
    if Near(f.c40, -0.68, 0.2) && Near(f.c42, -0.68, 0.2) then (QAM16, 16)
    else if Near(f.c40, -0.62, 0.15) && Near(f.c42, -0.62, 0.15) then (QAM64, 64)
    else if Near(f.c40, -0.5, 0.2) && Near(f.c42, -0.5, 0.2) then (QAM32, 32)
    else if Near(f.c40, -2.0, 0.3) && Near(f.c42, 2.0, 0.3) then (BPSK, 2)
    else if Near(f.c40, -2.0, 0.4) && Near(f.c42, 0.0, 0.2) then (QPSK, 4)
    else (QAM16, 16)
  }

  function DigitalLabel(f: Features): (Modulation, int) {
    if IsConstantEnvelope(f) then ConstantEnvelopeLabel(f) else VariableAmplitudeLabel(f)
  }

  datatype Verdict = Verdict(analog: Modulation, index: real, digital: Modulation, mAry: int)

  const UNLABELLED := Verdict(NoModulation, 0.0, NoModulation, 0)

  function VerdictOf(f: Features): Verdict {
    if f.snr < 5.0 then UNLABELLED
    else if f.chirp then UNLABELLED.(digital := CSS, mAry := 2)
    else if f.ofdm then UNLABELLED.(digital := OFDM)
    else if f.fhss then UNLABELLED.(digital := FHSS)
    else if f.dsss then UNLABELLED.(digital := DSSS)
    else if IsAnalog(f) then UNLABELLED.(analog := AnalogLabel(f).0, index := AnalogLabel(f).1)
    else UNLABELLED.(digital := DigitalLabel(f).0, mAry := DigitalLabel(f).1)
  }

  // ----- the region of the features that each label stands for

  /** Where an analog label is given, once the earlier tests leave a block undecided; the regions are disjoint. */
  predicate AnalogRegion(f: Features, kind: Modulation) {
    match kind
    case FM_WB => f.varianceNorm < 0.1 && f.fmDeviation > f.bandwidth * 0.1 && f.fmDeviation > 50000.0
    case FM_NB => f.varianceNorm < 0.1 && f.fmDeviation > f.bandwidth * 0.1 && f.fmDeviation <= 50000.0
    case PM =>
      && f.varianceNorm < 0.15 && f.phaseStd > 0.3 && f.freqStd < f.bandwidth * 0.1
      && (f.fmDeviation <= f.bandwidth * 0.1 || f.varianceNorm >= 0.1)
    case SSB_USB => AmRegion(f) && f.amIndex > 0.1 && f.symmetry < 0.5 && f.freqMean > 0.0
    case SSB_LSB => AmRegion(f) && f.amIndex > 0.1 && f.symmetry < 0.5 && f.freqMean <= 0.0
    case AM_DSB_SC => AmRegion(f) && f.amIndex < 0.05
    case CW => CarrierRegion(f) && (f.flatness > 0.8 || (f.isBurst && f.burstDuty < 0.6))
    case AM_DSB_LC => CarrierRegion(f) && f.flatness <= 0.8 && (!f.isBurst || f.burstDuty >= 0.6)
    case _ => false
  }

  predicate AmRegion(f: Features) {
    f.varianceNorm > 0.25 && f.fmDeviation < f.bandwidth / 4.0
  }

  predicate CarrierRegion(f: Features) {
    AmRegion(f) && f.amIndex >= 0.05 && (f.amIndex <= 0.1 || f.symmetry >= 0.5)
  }

  /** The features lie in the open rectangle of the cumulants. */
  predicate InBox(f: Features, lo40: real, hi40: real, lo42: real, hi42: real) {
    lo40 < f.c40 < hi40 && lo42 < f.c42 < hi42
  }

  /** Where a digital label is given on what is neither structured nor analog. */
  predicate DigitalRegion(f: Features, kind: Modulation) {
    if f.varianceNorm < 0.05 then ConstantEnvelopeRegion(f, kind) else VariableAmplitudeRegion(f, kind)
  }

  predicate ConstantEnvelopeRegion(f: Features, kind: Modulation) {
    match kind
    case GMSK => f.flatness < 0.2
    case FSK => f.flatness >= 0.2 && InBox(f, -0.3, 0.3, -2.5, -1.5)
    case BPSK => f.flatness >= 0.2 && -2.4 < f.c40 < -1.6 && f.c42 < -1.5
    case QPSK =>
      && f.flatness >= 0.2 && InBox(f, -2.5, -1.5, -1.6, -0.4)
      && (f.c42 >= -1.5 || f.c40 <= -2.4 || f.c40 >= -1.6)
    case PSK8 => f.flatness >= 0.2 && InBox(f, -0.4, 0.4, -1.4, -0.6)
    case PSK =>
      && f.flatness >= 0.2 && !InBox(f, -0.3, 0.3, -2.5, -1.5) && !InBox(f, -0.4, 0.4, -1.4, -0.6)
      && !InBox(f, -2.5, -1.5, -1.6, -0.4) && (f.c40 <= -2.4 || f.c40 >= -1.6 || f.c42 >= -1.5)
    case _ => false
  }

  predicate VariableAmplitudeRegion(f: Features, kind: Modulation) {
    match kind
    case QAM64 => InBox(f, -0.77, -0.47, -0.77, -0.47) && !InBox(f, -0.88, -0.48, -0.88, -0.48)
    case QAM32 =>
      && InBox(f, -0.7, -0.3, -0.7, -0.3) && !InBox(f, -0.88, -0.48, -0.88, -0.48)
      && !InBox(f, -0.77, -0.47, -0.77, -0.47)
    case BPSK => InBox(f, -2.3, -1.7, 1.7, 2.3)
    case QPSK => InBox(f, -2.4, -1.6, -0.2, 0.2)
    case QAM16 =>
      || InBox(f, -0.88, -0.48, -0.88, -0.48)
      || (&& !InBox(f, -0.77, -0.47, -0.77, -0.47) && !InBox(f, -0.7, -0.3, -0.7, -0.3)
          && !InBox(f, -2.3, -1.7, 1.7, 2.3) && !InBox(f, -2.4, -1.6, -0.2, 0.2))
    case _ => false
  }

  /** Where an undecided block is digital: outside every analog region. */
  predicate NoAnalogRegion(f: Features) {
    && (f.varianceNorm >= 0.1 || f.fmDeviation <= f.bandwidth * 0.1)
    && (f.varianceNorm >= 0.15 || f.phaseStd <= 0.3 || f.freqStd >= f.bandwidth * 0.1)
    && !AmRegion(f)
  }

  predicate AnalogExactlyOn(f: Features, analog: Modulation, kind: Modulation) {
    analog == kind && kind != NoModulation <==> Undecided(f) && AnalogRegion(f, kind)
  }

  predicate DigitalExactlyOn(f: Features, digital: Modulation, kind: Modulation) {
    && digital == kind && kind !in {NoModulation, CSS, OFDM, FHSS, DSSS}
    <==> Undecided(f) && NoAnalogRegion(f) && DigitalRegion(f, kind)
  }

  /** Each label is given exactly on its own region; what is left of the digital labels is structural. */
  predicate LabelledByRegion(f: Features, analog: Modulation, digital: Modulation) {
    && (forall kind :: AnalogExactlyOn(f, analog, kind))
    && (forall kind :: DigitalExactlyOn(f, digital, kind))
    && (digital == CSS <==> f.snr >= 5.0 && f.chirp)
    && (digital == OFDM <==> f.snr >= 5.0 && !f.chirp && f.ofdm)
    && (digital == FHSS <==> f.snr >= 5.0 && !f.chirp && !f.ofdm && f.fhss)
    && (digital == DSSS <==> f.snr >= 5.0 && !f.chirp && !f.ofdm && !f.fhss && f.dsss)
  }

  /** The index says how deep an analog modulation of that kind is. */
  function IndexOf(f: Features, kind: Modulation): real {
    match kind
    case FM_WB => f.fmDeviation
    case FM_NB => f.fmDeviation
    case PM => f.phaseStd
    case SSB_USB => f.amIndex
    case SSB_LSB => f.amIndex
    case AM_DSB_SC => f.amIndex
    case AM_DSB_LC => f.amIndex
    case _ => 0.0
  }

  /** The number of symbols of a digital modulation. */
  function OrderOf(kind: Modulation): int {
    match kind
    case QAM64 => 64
    case QAM32 => 32
    case QAM16 => 16
    case PSK8 => 8
    case QPSK => 4
    case PSK => 2
    case BPSK => 2
    case FSK => 2
    case GMSK => 2
    case CSS => 2
    case _ => 0
  }

  lemma IndexAndOrder(f: Features)
    ensures VerdictOf(f).index == IndexOf(f, VerdictOf(f).analog)
    ensures VerdictOf(f).mAry == OrderOf(VerdictOf(f).digital)
  {
    hide Near, LooksFm, LooksPm, LooksAm;
  }

  lemma AnalogByRegion(f: Features, kind: Modulation)
    ensures AnalogExactlyOn(f, VerdictOf(f).analog, kind)
  {
    hide DigitalLabel;
  }

  lemma DigitalByRegion(f: Features, kind: Modulation)
    ensures DigitalExactlyOn(f, VerdictOf(f).digital, kind)
  {
    hide VerdictOf, NoAnalogRegion, ConstantEnvelopeLabel, VariableAmplitudeLabel, ConstantEnvelopeRegion,
      VariableAmplitudeRegion;
    StructuralLabels(f);
    if IsConstantEnvelope(f) {
      ConstantEnvelopeByRegion(f, kind);
    } else {
      VariableAmplitudeByRegion(f, kind);
    }
  }

  lemma ConstantEnvelopeByRegion(f: Features, kind: Modulation)
    requires IsConstantEnvelope(f)
    ensures ConstantEnvelopeLabel(f).0 == kind <==> ConstantEnvelopeRegion(f, kind)
  {
  }

  lemma VariableAmplitudeByRegion(f: Features, kind: Modulation)
    requires !IsConstantEnvelope(f)
    ensures VariableAmplitudeLabel(f).0 == kind <==> VariableAmplitudeRegion(f, kind)
  {
    VariableAmplitudeBoxes(f);
    hide Near, InBox;
  }

  lemma VariableAmplitudeBoxes(f: Features)
    ensures Near(f.c40, -0.68, 0.2) && Near(f.c42, -0.68, 0.2) <==> InBox(f, -0.88, -0.48, -0.88, -0.48)
    ensures Near(f.c40, -0.62, 0.15) && Near(f.c42, -0.62, 0.15) <==> InBox(f, -0.77, -0.47, -0.77, -0.47)
    ensures Near(f.c40, -0.5, 0.2) && Near(f.c42, -0.5, 0.2) <==> InBox(f, -0.7, -0.3, -0.7, -0.3)
    ensures Near(f.c40, -2.0, 0.3) && Near(f.c42, 2.0, 0.3) <==> InBox(f, -2.3, -1.7, 1.7, 2.3)
    ensures Near(f.c40, -2.0, 0.4) && Near(f.c42, 0.0, 0.2) <==> InBox(f, -2.4, -1.6, -0.2, 0.2)
    ensures InBox(f, -2.3, -1.7, 1.7, 2.3) || InBox(f, -2.4, -1.6, -0.2, 0.2) ==>
              && !InBox(f, -0.88, -0.48, -0.88, -0.48) && !InBox(f, -0.77, -0.47, -0.77, -0.47)
              && !InBox(f, -0.7, -0.3, -0.7, -0.3)
    ensures !InBox(f, -2.3, -1.7, 1.7, 2.3) || !InBox(f, -2.4, -1.6, -0.2, 0.2)
  {
  }

  lemma VerdictByRegion(f: Features)
    ensures LabelledByRegion(f, VerdictOf(f).analog, VerdictOf(f).digital)
  {
    hide DigitalLabel, AnalogExactlyOn, DigitalExactlyOn, VerdictOf;
    StructuralLabels(f);
    forall kind
      ensures AnalogExactlyOn(f, VerdictOf(f).analog, kind) && DigitalExactlyOn(f, VerdictOf(f).digital, kind)
    {
      AnalogByRegion(f, kind);
      DigitalByRegion(f, kind);
    }
  }

  lemma StructuralLabels(f: Features)
    ensures VerdictOf(f).digital == CSS <==> f.snr >= 5.0 && f.chirp
    ensures VerdictOf(f).digital == OFDM <==> f.snr >= 5.0 && !f.chirp && f.ofdm
    ensures VerdictOf(f).digital == FHSS <==> f.snr >= 5.0 && !f.chirp && !f.ofdm && f.fhss
    ensures VerdictOf(f).digital == DSSS <==> f.snr >= 5.0 && !f.chirp && !f.ofdm && !f.fhss && f.dsss
    ensures VerdictOf(f).digital !in {NoModulation, CSS, OFDM, FHSS, DSSS} <==> Undecided(f) && NoAnalogRegion(f)
    ensures Undecided(f) && NoAnalogRegion(f) ==> VerdictOf(f).digital == DigitalLabel(f).0
  {
    hide DigitalLabel, AnalogLabel;
    DigitalRange(f);
  }

  // ----- the classification as it runs

  /** Layers 1 to 4 of an analysis result, the ones the classifier fills. */
  class ResultLayers {
    var centerFreq: real
    var bandwidth: real
    var snr: real
    var symbolRate: real
    var isBurst: bool
    var burstDuty: real
    var isFhss: bool
    var isDsss: bool
    var isTdma: bool
    var subcarrierSpacing: real
    var bitRate: real
    var lineCode: LineCode
    var classified: bool
    var rejectReason: RejectReason
    var analogIndex: real
    var mAry: int
    var isOfdm: bool
    var isSpread: bool
    var analogModulation: Modulation
    var digitalModulation: Modulation

    ghost predicate Labelled(v: Verdict)
      reads this
    {
      analogModulation == v.analog && analogIndex == v.index && digitalModulation == v.digital && mAry == v.mAry
    }

    constructor ()
      ensures rejectReason == NoReason
    {
      rejectReason := NoReason;
    }
  }

  /** The index reported with an analog label says how deep that kind of modulation is. */
  method ClassifyAnalog(f: Features) returns (kind: Modulation, index: real)
    ensures (kind, index) == AnalogLabel(f)
    ensures kind in {FM_WB, FM_NB} <==> LooksFm(f)
    ensures kind == PM <==> !LooksFm(f) && LooksPm(f)
    ensures index == if kind in {FM_WB, FM_NB} then f.fmDeviation else if kind == PM then f.phaseStd
                     else if kind == CW then 0.0 else f.amIndex
  {
    if f.fmDeviation > f.bandwidth * 0.1 && f.varianceNorm < 0.1 {
      index := f.fmDeviation;
      if f.fmDeviation > 50000.0 {
        return FM_WB, index;
      }
      return FM_NB, index;
    }
    if f.phaseStd > 0.3 && f.varianceNorm < 0.15 && f.freqStd < f.bandwidth * 0.1 {
      return PM, f.phaseStd;
    }
    index := f.amIndex;
    if f.amIndex > 0.1 && f.symmetry < 0.5 {
      if f.freqMean > 0.0 {
        return SSB_USB, index;
      }
      return SSB_LSB, index;
    }
    if f.amIndex < 0.05 && f.varianceNorm > 0.25 {
      return AM_DSB_SC, index;
    }
    if f.flatness > 0.8 || (f.isBurst && f.burstDuty < 0.6) {
      return CW, 0.0;
    }
    return AM_DSB_LC, index;
  }

  /**
   The logarithm is an argument. Besides the label the contract says what the structural and
   bit-stream fields end up as; the reject reason is only ever written by the SNR gate.
   */
  method Classify(f: Features, r: ResultLayers, log2: int -> real)
    modifies r
    ensures r.centerFreq == f.centerFreq && r.bandwidth == f.bandwidth && r.snr == f.snr
    ensures r.isBurst == f.isBurst && r.burstDuty == f.burstDuty && r.isFhss == f.fhss && r.isDsss == f.dsss
    ensures r.isTdma <==> f.isBurst && f.burstPeriod > 0.0
    ensures r.Labelled(VerdictOf(f))
    ensures LabelledByRegion(f, r.analogModulation, r.digitalModulation)
    ensures r.analogIndex == IndexOf(f, r.analogModulation) && r.mAry == OrderOf(r.digitalModulation)
    ensures r.classified <==> f.snr >= 5.0
    ensures r.rejectReason == if r.classified then old(r.rejectReason) else SnrTooLow
    ensures r.isOfdm <==> r.digitalModulation == OFDM
    ensures r.isSpread <==> f.fhss || f.dsss
    ensures r.isOfdm && f.fftSize > 0 ==>
              r.symbolRate == r.subcarrierSpacing && r.subcarrierSpacing * f.fftSize as real == f.sampleRate
    ensures !r.isOfdm || f.fftSize <= 0 ==> r.symbolRate == f.symbolRate && r.subcarrierSpacing == 0.0
    ensures r.lineCode != NoLineCode <==> r.digitalModulation in {FSK, GMSK}
    ensures r.lineCode != NoLineCode ==>
              (r.lineCode == Manchester <==>
               f.symbolRate > 0.0 && 1.8 * f.symbolRate < f.bandwidth < 2.5 * f.symbolRate)
    ensures r.bitRate ==
            if Undecided(f) && !IsAnalog(f) && f.symbolRate > 0.0 then f.symbolRate * log2(r.mAry) else 0.0
  {
    hide DigitalLabel, AnalogLabel, IsAnalog, Rate, Spacing, LabelledByRegion, IndexOf, OrderOf;
    SetDefaults(f, r);
    VerdictByRegion(f);
    IndexAndOrder(f);
    if f.snr < 5.0 {
      r.classified := false;
      r.rejectReason := SnrTooLow;
      return;
    }
    LabelBlock(f, r, log2);
    BitsPerSecond(f.symbolRate, log2(r.mAry));
    if f.fftSize > 0 {
      BinsFillRate(f);
    }
  }

  /** The tests after the SNR gate, in their order; the first that holds settles the label. */
  method LabelBlock(f: Features, r: ResultLayers, log2: int -> real)
    requires f.snr >= 5.0 && r.Labelled(UNLABELLED) && r.symbolRate == f.symbolRate && r.subcarrierSpacing == 0.0
    requires r.lineCode == NoLineCode && r.bitRate == 0.0 && !r.isOfdm && (r.isSpread <==> f.fhss || f.dsss)
    modifies r`digitalModulation, r`mAry, r`analogModulation, r`analogIndex, r`isOfdm, r`isSpread
    modifies r`symbolRate, r`subcarrierSpacing, r`lineCode, r`bitRate
    ensures r.Labelled(VerdictOf(f))
    ensures r.isOfdm <==> r.digitalModulation == OFDM
    ensures r.isSpread <==> f.fhss || f.dsss
    ensures r.subcarrierSpacing == if r.isOfdm && f.fftSize > 0 then Spacing(f) else 0.0
    ensures r.symbolRate == if r.isOfdm && f.fftSize > 0 then Spacing(f) else f.symbolRate
    ensures r.lineCode ==
            if r.digitalModulation in {FSK, GMSK} then LineCodeOf(f.bandwidth, f.symbolRate) else NoLineCode
    ensures r.bitRate ==
            if Undecided(f) && !IsAnalog(f) && f.symbolRate > 0.0 then Rate(f.symbolRate, log2(r.mAry)) else 0.0
  {
    hide DigitalLabel, AnalogLabel, LooksFm, LooksPm, LooksAm, Rate, Spacing, LineCodeOf;
    if f.chirp {
      r.digitalModulation := CSS;
      r.mAry := 2;
      return;
    }
    if f.ofdm {
      r.digitalModulation := OFDM;
      r.isOfdm := true;
      if f.fftSize > 0 {
        r.symbolRate := Spacing(f);
      }
      r.subcarrierSpacing := if f.fftSize > 0 then Spacing(f) else 0.0;
      return;
    }
    if f.fhss {
      r.digitalModulation := FHSS;
      r.isSpread := true;
      return;
    }
    if f.dsss {
      r.digitalModulation := DSSS;
      r.isSpread := true;
      return;
    }
    if IsAnalog(f) {
      r.analogModulation, r.analogIndex := ClassifyAnalog(f);
      return;
    }
    DigitalTraits(f, r, log2);
  }

  /** The fields every classification starts from. */
  method SetDefaults(f: Features, r: ResultLayers)
    modifies r
    ensures r.centerFreq == f.centerFreq && r.bandwidth == f.bandwidth && r.snr == f.snr
    ensures r.symbolRate == f.symbolRate && r.subcarrierSpacing == 0.0 && r.bitRate == 0.0
    ensures r.isBurst == f.isBurst && r.burstDuty == f.burstDuty && r.isFhss == f.fhss && r.isDsss == f.dsss
    ensures (r.isTdma <==> f.isBurst && f.burstPeriod > 0.0) && (r.isSpread <==> f.fhss || f.dsss)
    ensures r.classified && !r.isOfdm && r.lineCode == NoLineCode
    ensures r.analogModulation == r.digitalModulation == NoModulation && r.analogIndex == 0.0 && r.mAry == 0
    ensures r.rejectReason == old(r.rejectReason)
  {
    hide *;
    SetStructure(f, r);
    ClearTraits(r);
    r.classified := true;
    r.isSpread := f.fhss || f.dsss;
  }

  method ClearTraits(r: ResultLayers)
    modifies r`subcarrierSpacing, r`bitRate, r`lineCode, r`isOfdm, r`analogIndex, r`mAry
    modifies r`analogModulation, r`digitalModulation
    ensures r.subcarrierSpacing == 0.0 && r.bitRate == 0.0 && r.lineCode == NoLineCode && !r.isOfdm
    ensures r.analogModulation == r.digitalModulation == NoModulation && r.analogIndex == 0.0 && r.mAry == 0
  {
    hide *;
    r.subcarrierSpacing := 0.0;
    r.bitRate := 0.0;
    r.lineCode := NoLineCode;
    r.analogIndex := 0.0;
    r.mAry := 0;
    r.isOfdm := false;
    r.analogModulation := NoModulation;
    r.digitalModulation := NoModulation;
  }

  /** The spectral basics and the channel structure, which are copied whatever the label. */
  method SetStructure(f: Features, r: ResultLayers)
    modifies r
    ensures r.centerFreq == f.centerFreq && r.bandwidth == f.bandwidth && r.snr == f.snr
    ensures r.symbolRate == f.symbolRate
    ensures r.isBurst == f.isBurst && r.burstDuty == f.burstDuty && r.isFhss == f.fhss && r.isDsss == f.dsss
    ensures r.isTdma <==> f.isBurst && f.burstPeriod > 0.0
    ensures r.rejectReason == old(r.rejectReason)
  {
    hide *;
    r.centerFreq := f.centerFreq;
    r.bandwidth := f.bandwidth;
    r.snr := f.snr;
    r.symbolRate := f.symbolRate;
    r.isBurst := f.isBurst;
    r.burstDuty := f.burstDuty;
    r.isFhss := f.fhss;
    r.isDsss := f.dsss;
    r.isTdma := f.isBurst && f.burstPeriod > 0.0;
  }

  /** A constant envelope is never QAM; the order is 4 for QPSK, 8 for 8PSK and 2 for the others. */
  method ClassifyConstantEnvelope(f: Features) returns (kind: Modulation, mAry: int)
    ensures (kind, mAry) == ConstantEnvelopeLabel(f)
    ensures kind in {GMSK, FSK, BPSK, QPSK, PSK8, PSK}
    ensures mAry == if kind == QPSK then 4 else if kind == PSK8 then 8 else 2
    ensures f.flatness >= 0.2 && kind in {FSK, BPSK} ==> f.c42 < -1.5
    ensures kind in {QPSK, PSK8} ==> -1.6 < f.c42 < -0.4
  {
    if f.flatness < 0.2 && f.varianceNorm < 0.05 {
      return GMSK, 2;
    }
    if Near(f.c42, -2.0, 0.5) && Near(f.c40, 0.0, 0.3) {
      return FSK, 2;
    }
    if Near(f.c40, -2.0, 0.4) && f.c42 < -1.5 {
      return BPSK, 2;
    }
    if Near(f.c40, -2.0, 0.5) && Near(f.c42, -1.0, 0.6) {
      return QPSK, 4;
    }
    if Near(f.c40, 0.0, 0.4) && Near(f.c42, -1.0, 0.4) {
      return PSK8, 8;
    }
    return PSK, 2;
  }

  /** A varying envelope is never FSK or plain PSK; the order is the number in the name of the constellation. */
  method ClassifyVariableAmplitude(f: Features) returns (kind: Modulation, mAry: int)
    ensures (kind, mAry) == VariableAmplitudeLabel(f)
    ensures kind in {QAM16, QAM32, QAM64, BPSK, QPSK}
    ensures mAry == if kind == QAM64 then 64 else if kind == QAM32 then 32 else if kind == QAM16 then 16
                    else if kind == QPSK then 4 else 2
    ensures kind == BPSK ==> f.c42 > 1.7
  {
    if Near(f.c40, -0.68, 0.2) && Near(f.c42, -0.68, 0.2) {
      return QAM16, 16;
    }
    if Near(f.c40, -0.62, 0.15) && Near(f.c42, -0.62, 0.15) {
      return QAM64, 64;
    }
    if Near(f.c40, -0.5, 0.2) && Near(f.c42, -0.5, 0.2) {
      return QAM32, 32;
    }
    if Near(f.c40, -2.0, 0.3) && Near(f.c42, 2.0, 0.3) {
      return BPSK, 2;
    }
    if Near(f.c40, -2.0, 0.4) && Near(f.c42, 0.0, 0.2) {
      return QPSK, 4;
    }
    return QAM16, 16;
  }

  method ClassifyDigital(f: Features) returns (kind: Modulation, mAry: int)
    ensures (kind, mAry) == DigitalLabel(f)
    ensures kind in {GMSK, FSK, PSK8, PSK} ==> IsConstantEnvelope(f)
    ensures kind in {QAM16, QAM64, QAM32} <==> !IsConstantEnvelope(f) && kind !in {BPSK, QPSK}
  {
    hide Near;
    if IsConstantEnvelope(f) {
      kind, mAry := ClassifyConstantEnvelope(f);
    } else {
      kind, mAry := ClassifyVariableAmplitude(f);
    }
  }

  /** The digital label and the bit-stream traits that follow from it. */
  method DigitalTraits(f: Features, r: ResultLayers, log2: int -> real)
    requires r.symbolRate == f.symbolRate && r.lineCode == NoLineCode && r.bitRate == 0.0
    modifies r`digitalModulation, r`mAry, r`lineCode, r`bitRate
    ensures (r.digitalModulation, r.mAry) == DigitalLabel(f) && r.digitalModulation != OFDM
    ensures r.lineCode ==
            if r.digitalModulation in {FSK, GMSK} then LineCodeOf(f.bandwidth, f.symbolRate) else NoLineCode
    ensures r.bitRate == if f.symbolRate > 0.0 then Rate(f.symbolRate, log2(r.mAry)) else 0.0
  {
    DigitalRange(f);
    hide DigitalLabel;
    r.digitalModulation, r.mAry := ClassifyDigital(f);
    if r.digitalModulation == FSK || r.digitalModulation == GMSK {
      r.lineCode := LineCodeOf(f.bandwidth, f.symbolRate);
    }
    if r.mAry > 1 && r.symbolRate > 0.0 {
      r.bitRate := Rate(r.symbolRate, log2(r.mAry));
    }
  }

  lemma DigitalRange(f: Features)
    ensures DigitalLabel(f).1 > 1 && DigitalLabel(f).0 !in {NoModulation, CSS, OFDM, FHSS, DSSS}
  {
  }

  function Rate(symbolRate: real, bits: real): real {
    symbolRate * bits
  }

  lemma BitsPerSecond(symbolRate: real, bits: real)
    ensures Rate(symbolRate, bits) == symbolRate * bits
  {
  }

  lemma BinsFillRate(f: Features)
    requires f.fftSize > 0
    ensures Spacing(f) * f.fftSize as real == f.sampleRate
  {
    ClearQuotient(Spacing(f), f.sampleRate, f.fftSize as real);
  }

  /** The subcarrier spacing, which OFDM also takes as its symbol rate. */
  function Spacing(f: Features): real
    requires f.fftSize > 0
  {
    f.sampleRate / f.fftSize as real
  }

  /** The bandwidth is roughly twice the symbol rate. */
  predicate DoubleRate(bandwidth: real, symbolRate: real) {
    symbolRate > 0.0 && bandwidth > 1.8 * symbolRate && bandwidth < 2.5 * symbolRate
  }

  function LineCodeOf(bandwidth: real, symbolRate: real): (code: LineCode)
    ensures code == Manchester <==> DoubleRate(bandwidth, symbolRate)
    ensures code != NoLineCode
  {
    if bandwidth > 0.0 && symbolRate > 0.0 then
      var ratio := bandwidth / symbolRate;
      RatioBetween(ratio, bandwidth, symbolRate);
      if ratio > 1.8 && ratio < 2.5 then Manchester else NRZ
    else NRZ
  }

  lemma RatioBetween(q: real, a: real, b: real)
    requires b > 0.0 && q == a / b
    ensures q > 1.8 <==> a > 1.8 * b
    ensures q < 2.5 <==> a < 2.5 * b
  {
    Below(q, 1.8, b, a);
    Below(q, 2.5, b, a);
  }

  lemma Below(q: real, t: real, b: real, a: real)
    requires b > 0.0 && q == a / b
    ensures q < t <==> a < t * b
    ensures q > t <==> a > t * b
  {
    ClearQuotient(q, a, b);
    if t * b <= a {
      OrderedByFactor(t, q, b);
    }
    if a <= t * b {
      OrderedByFactor(q, t, b);
    }
    if a == t * b {
      EqualByFactor(q, t, b);
    }
  }

  // ----- every verdict is one label

  /** A classified signal carries exactly one of the two labels, an unclassified one neither. */
  lemma ExactlyOneLabel(f: Features)
    ensures f.snr < 5.0 ==> VerdictOf(f) == UNLABELLED
    ensures f.snr >= 5.0 ==> (VerdictOf(f).analog == NoModulation <==> VerdictOf(f).digital != NoModulation)
    ensures VerdictOf(f).analog != NoModulation <==> Undecided(f) && IsAnalog(f)
  {
  }

  // ----- which labels an extracted block can carry

  /** The parts of the features that are computed from the samples. */
  datatype Part = Amplitudes | HigherOrder | PhaseAndFrequency | Bursts

  /** One part of the features of the block x, taken at f.sampleRate, is what its detector computes. */
  ghost predicate Stores(f: Features, x: seq<Complex>, c: Circle, sqrt: real -> real, part: Part)
    requires x != [] && c.pi > 0.0
  {
    match part
    case Amplitudes =>
      var stats := Envelope.StatsOf(Envelope.Magnitudes(x, sqrt));
      f.varianceNorm == stats.varianceNorm && f.amIndex == stats.amIndex
    case HigherOrder =>
      f.c40 == Cumulants.CumulantsOf(x).c40.re && f.c42 == Cumulants.CumulantsOf(x).c42
    case PhaseAndFrequency =>
      && f.freqMean == PhaseStatistics.FrequencyMean(x, f.sampleRate, c)
      && f.freqStd == PhaseStatistics.FrequencyStd(x, f.sampleRate, c, sqrt) && f.fmDeviation == f.freqStd
      && f.phaseStd == PhaseStatistics.PhaseStd(x, c, sqrt)
    case Bursts =>
      && (f.isBurst <==> f.burstPeriod > 0.0)
      && exists period: nat :: BurstIn(f, x, period)
  }

  /** The burst features are those of the report on the block's windows, the period turned into seconds. */
  ghost predicate BurstIn(f: Features, x: seq<Complex>, period: nat) {
    && (f.sampleRate > 0.0 ==> f.burstPeriod == if period > 0 then period as real / f.sampleRate else 0.0)
    && if |x| < Burst.WINDOWS then !f.isBurst && f.burstDuty == 1.0 && period == 0
       else Burst.Reports(Burst.PatternOf(x), |x| / Burst.WINDOWS, f.isBurst, f.burstDuty, period)
  }

  /** f is what extract stores about the samples of x. */
  ghost predicate ExtractedFrom(f: Features, x: seq<Complex>, c: Circle, sqrt: real -> real)
    requires x != [] && c.pi > 0.0
  {
    forall part :: Stores(f, x, c, sqrt, part)
  }

  /** The envelope extremes clear the guard below which the AM index is never computed. */
  ghost predicate Loud(x: seq<Complex>, sqrt: real -> real)
    requires x != []
  {
    var env := Envelope.Magnitudes(x, sqrt);
    Envelope.RunningMax(env) + Envelope.RunningMin(env) > Envelope.EXTREMES_GUARD
  }

  lemma MagnitudesNonNegative(x: seq<Complex>, sqrt: real -> real)
    requires IsSquareRoot(sqrt)
    ensures Envelope.NonNegative(Envelope.Magnitudes(x, sqrt))
  {
    var env := Envelope.Magnitudes(x, sqrt);
    forall i | 0 <= i < |env|
      ensures env[i] >= 0.0
    {
      NormNonNegative(x[i]);
      assert env[i] == sqrt(x[i].Norm());
    }
  }

  lemma SuppressedCarrierFeatures(f: Features, x: seq<Complex>, c: Circle, sqrt: real -> real)
    requires x != [] && c.pi > 0.0 && IsSquareRoot(sqrt) && ExtractedFrom(f, x, c, sqrt)
    ensures f.varianceNorm > 0.25 ==> (f.amIndex < 0.05 <==> !Loud(x, sqrt))
    ensures !Loud(x, sqrt) ==> f.amIndex == 0.0
  {
    hide IsSquareRoot, Envelope.StatsOf, Envelope.RunningMin, Envelope.RunningMax;
    assert Stores(f, x, c, sqrt, Amplitudes);
    MagnitudesNonNegative(x, sqrt);
    Envelope.SuppressedCarrierCondition(Envelope.Magnitudes(x, sqrt));
    if !Loud(x, sqrt) {
      QuietIndex(Envelope.Magnitudes(x, sqrt));
    }
  }

  lemma QuietIndex(env: seq<real>)
    requires env != [] && Envelope.RunningMax(env) + Envelope.RunningMin(env) <= Envelope.EXTREMES_GUARD
    ensures Envelope.StatsOf(env).amIndex == 0.0
  {
  }

  /**
   The suppressed-carrier label is a sign of near silence, not of a suppressed carrier: a block gets
   it exactly when the tree takes its AM branch on a block whose extremes fail their guard.
   */
  lemma SuppressedCarrierMeansSilent(f: Features, x: seq<Complex>, c: Circle, sqrt: real -> real)
    requires x != [] && c.pi > 0.0 && IsSquareRoot(sqrt) && ExtractedFrom(f, x, c, sqrt)
    ensures VerdictOf(f).analog == AM_DSB_SC <==> Undecided(f) && LooksAm(f) && !Loud(x, sqrt)
  {
    hide Loud, IsSquareRoot, ExtractedFrom;
    SuppressedCarrierFeatures(f, x, c, sqrt);
  }

  predicate AmFamily(kind: Modulation) {
    kind in {SSB_USB, SSB_LSB, AM_DSB_SC, CW, AM_DSB_LC}
  }

  lemma LargeVarianceNeedsIndex(v: real, a: real)
    requires Envelope.VarianceWithinIndex(v, a) && v > 0.25 && a >= 0.0
    ensures a > 0.1
  {
    var b := a * a;
    if a <= 0.1 {
      ProductOfOrdered(a, 0.1, a, 0.1);
      ProductOfOrdered(0.25, v, 0.99, 1.0 - b);
    }
  }

  lemma LoudVarianceNeedsIndex(f: Features, x: seq<Complex>, c: Circle, sqrt: real -> real)
    requires x != [] && c.pi > 0.0 && IsSquareRoot(sqrt) && ExtractedFrom(f, x, c, sqrt) && Loud(x, sqrt)
    ensures f.varianceNorm > 0.25 ==> f.amIndex > 0.1
  {
    hide IsSquareRoot, Envelope.RunningMin, Envelope.RunningMax, Envelope.VarianceWithinIndex, RealSums.VarianceOf,
      Envelope.NormalisedVariance, RealSums.Sum, RealSums.Dot, Complex.Norm;
    var env := Envelope.Magnitudes(x, sqrt);
    assert Stores(f, x, c, sqrt, Amplitudes);
    MagnitudesNonNegative(x, sqrt);
    Envelope.VarianceNeedsIndex(env);
    Envelope.ExtremesEnclose(env);
    Envelope.IndexMeaning(Envelope.RunningMin(env), Envelope.RunningMax(env));
    if f.varianceNorm > 0.25 {
      LargeVarianceNeedsIndex(f.varianceNorm, f.amIndex);
    }
  }

  /**
   In a loud block the index test of the single-sideband rule is never what decides: within the AM
   family the label is single-sideband exactly when the symmetry feature is below one half.
   */
  lemma SidebandBySymmetry(f: Features, x: seq<Complex>, c: Circle, sqrt: real -> real)
    requires x != [] && c.pi > 0.0 && IsSquareRoot(sqrt) && ExtractedFrom(f, x, c, sqrt) && Loud(x, sqrt)
    ensures AmFamily(VerdictOf(f).analog) <==> Undecided(f) && LooksAm(f)
    ensures AmFamily(VerdictOf(f).analog) ==>
              (VerdictOf(f).analog in {SSB_USB, SSB_LSB} <==> f.symmetry < 0.5)
  {
    hide Loud, IsSquareRoot, ExtractedFrom;
    LoudVarianceNeedsIndex(f, x, c, sqrt);
  }

  // ----- blocks of constant modulus

  lemma ConstantEnvelopeHasNoVariance(x: seq<Complex>, rho: real, sqrt: real -> real)
    requires x != [] && Cumulants.ConstantModulus(x, rho)
    ensures Envelope.StatsOf(Envelope.Magnitudes(x, sqrt)).varianceNorm == 0.0
  {
    hide RealSums.Sum, Complex.Norm;
    var env := Envelope.Magnitudes(x, sqrt);
    SumConstant(env, sqrt(rho));
    MeanOfConstant(Mean(env), sqrt(rho), |x| as real, Sum(env));
    FlatEnvelope(env, sqrt(rho));
  }

  lemma FlatEnvelope(env: seq<real>, level: real)
    requires env != [] && Mean(env) == level && forall i :: 0 <= i < |env| ==> env[i] == level
    ensures Envelope.StatsOf(env).varianceNorm == 0.0
  {
    hide RealSums.Sum, Envelope.AmIndex, Envelope.RunningMin, Envelope.RunningMax, Mean;
    var d := Deviations(env);
    SumConstant(Times(d, d), 0.0);
    NoQuotient(VarianceOf(env), Mean(env) * Mean(env), |env| as real);
  }

  lemma NoQuotient(v: real, m: real, n: real)
    requires n > 0.0 && v == (n * 0.0) / n
    ensures m > Envelope.MEAN_GUARD ==> v / m == 0.0
  {
  }

  lemma MeanOfConstant(m: real, level: real, n: real, sum: real)
    requires n > 0.0 && sum == n * level && m == sum / n
    ensures m == level
  {
  }

  /** A block of constant modulus, with what extraction says about it. */
  ghost predicate IdealBlock(f: Features, x: seq<Complex>, rho: real, c: Circle, sqrt: real -> real) {
    && Cumulants.ConstantModulus(x, rho) && Cumulants.AboveGuard(x) && x != []
    && IsCircle(c, sqrt) && IsSquareRoot(sqrt) && ExtractedFrom(f, x, c, sqrt)
  }

  /** Its features: no envelope variance, the cumulants of the block, and the deviations measured. */
  lemma IdealFeatures(f: Features, x: seq<Complex>, rho: real, c: Circle, sqrt: real -> real)
    requires IdealBlock(f, x, rho, c, sqrt)
    ensures f.varianceNorm == 0.0 && f.c40 == Cumulants.CumulantsOf(x).c40.re && f.c42 == Cumulants.CumulantsOf(x).c42
    ensures f.fmDeviation == f.freqStd == PhaseStatistics.FrequencyStd(x, f.sampleRate, c, sqrt)
    ensures f.phaseStd == PhaseStatistics.PhaseStd(x, c, sqrt)
    ensures f.c42 <= f.c40 <= -f.c42
  {
    hide RealSums.Sum, ComplexSum, Cumulants.CumulantsOf, Envelope.StatsOf, Cumulants.AboveGuard,
      Cumulants.ConstantModulus, IsSquareRoot, PhaseStatistics.FrequencyStd, PhaseStatistics.PhaseStd,
      PhaseStatistics.FrequencyMean;
    assert Stores(f, x, c, sqrt, Amplitudes) && Stores(f, x, c, sqrt, HigherOrder);
    assert Stores(f, x, c, sqrt, PhaseAndFrequency);
    ConstantEnvelopeHasNoVariance(x, rho, sqrt);
    Cumulants.C40WithinC42(x, rho);
  }

  predicate IsFm(kind: Modulation) {
    kind == FM_WB || kind == FM_NB
  }

  /**
   Whatever its constellation, a constant-modulus block that earlier tests leave undecided is FM if its
   frequency deviates by more than a tenth of the bandwidth, PM if by less while its phase deviates by
   more than 0.3, and only otherwise digital.
   */
  lemma ConstantModulusVerdict(f: Features, x: seq<Complex>, rho: real, c: Circle, sqrt: real -> real)
    requires IdealBlock(f, x, rho, c, sqrt) && Undecided(f)
    ensures IsFm(VerdictOf(f).analog) <==> f.freqStd > f.bandwidth * 0.1
    ensures VerdictOf(f).analog == PM <==> f.freqStd < f.bandwidth * 0.1 && f.phaseStd > 0.3
    ensures VerdictOf(f).analog == NoModulation <==>
            f.freqStd == f.bandwidth * 0.1 || (f.freqStd < f.bandwidth * 0.1 && f.phaseStd <= 0.3)
    ensures VerdictOf(f).analog == NoModulation ==>
              (VerdictOf(f).digital, VerdictOf(f).mAry) == ConstantEnvelopeLabel(f)
    ensures VerdictOf(f).analog != NoModulation ==> VerdictOf(f).digital == NoModulation
  {
    hide IdealBlock, ConstantEnvelopeLabel;
    IdealFeatures(f, x, rho, c, sqrt);
  }

  /** Exactly when a constant-modulus block is labelled QPSK. */
  lemma QpskLabelExactly(f: Features, x: seq<Complex>, rho: real, c: Circle, sqrt: real -> real)
    requires IdealBlock(f, x, rho, c, sqrt)
    ensures VerdictOf(f).digital == QPSK <==>
            Undecided(f) && !IsAnalog(f) && f.flatness >= 0.2 && -1.6 < f.c42 && f.c40 < -1.5
  {
    hide IdealBlock;
    IdealFeatures(f, x, rho, c, sqrt);
  }

  /**
   Ideal QPSK (constant modulus, squares that cancel) is never labelled QPSK. Its phases deviate by more
   than 0.3, so an undecided block is FM or PM, and digital only if the frequency deviation is exactly a
   tenth of the bandwidth; then it is GMSK, 8PSK or plain PSK.
   */
  lemma IdealQpskLabel(f: Features, x: seq<Complex>, rho: real, c: Circle, sqrt: real -> real)
    requires IdealBlock(f, x, rho, c, sqrt) && ComplexSum(Cumulants.Squares(x)) == CZERO && Undecided(f)
    ensures f.phaseStd > 0.3
    ensures IsFm(VerdictOf(f).analog) <==> f.freqStd > f.bandwidth * 0.1
    ensures VerdictOf(f).analog == PM <==> f.freqStd < f.bandwidth * 0.1
    ensures VerdictOf(f).digital ==
            if f.freqStd != f.bandwidth * 0.1 then NoModulation
            else if f.flatness < 0.2 then GMSK
            else if Near(f.c40, 0.0, 0.4) then PSK8 else PSK
  {
    hide *;
    IdealIsBlock(f, x, rho, c, sqrt);
    IdealFeatures(f, x, rho, c, sqrt);
    Cumulants.BalancedCumulants(x, rho);
    PhaseStatistics.CancellingSquaresSpreadPhases(x, rho, c, sqrt);
    ConstantModulusVerdict(f, x, rho, c, sqrt);
    BalancedLabel(f);
  }

  lemma BalancedLabel(f: Features)
    requires f.varianceNorm == 0.0 && f.c42 == -1.0 && -1.0 <= f.c40 <= 1.0
    ensures ConstantEnvelopeLabel(f).0 ==
            if f.flatness < 0.2 then GMSK else if Near(f.c40, 0.0, 0.4) then PSK8 else PSK
  {
  }

  lemma AntipodalLabel(f: Features)
    requires f.varianceNorm == 0.0 && f.c42 == -2.0 && f.c40 == -2.0
    ensures ConstantEnvelopeLabel(f).0 == if f.flatness < 0.2 then GMSK else BPSK
  {
  }

  lemma IdealIsBlock(f: Features, x: seq<Complex>, rho: real, c: Circle, sqrt: real -> real)
    requires IdealBlock(f, x, rho, c, sqrt)
    ensures Cumulants.ConstantModulus(x, rho) && Cumulants.AboveGuard(x) && x != []
    ensures IsCircle(c, sqrt) && IsSquareRoot(sqrt)
  {
  }

  lemma AntipodalModulus(x: seq<Complex>, a: real)
    requires Cumulants.Antipodal(x, a) && a != 0.0
    ensures Cumulants.ConstantModulus(x, a * a)
  {
    NonZeroSquare(a, a * a);
    forall i | 0 <= i < |x|
      ensures x[i].Norm() == a * a
    {
    }
  }

  /** An antipodal block, with what extraction says about it. */
  ghost predicate AntipodalBlock(f: Features, x: seq<Complex>, a: real, c: Circle, sqrt: real -> real) {
    && Cumulants.Antipodal(x, a) && a != 0.0 && Cumulants.AboveGuard(x) && x != []
    && IsCircle(c, sqrt) && IsSquareRoot(sqrt) && ExtractedFrom(f, x, c, sqrt)
  }

  lemma AntipodalIsIdeal(f: Features, x: seq<Complex>, a: real, c: Circle, sqrt: real -> real)
    requires AntipodalBlock(f, x, a, c, sqrt)
    ensures IdealBlock(f, x, a * a, c, sqrt) && Cumulants.Antipodal(x, a) && a != 0.0
  {
    hide Cumulants.Antipodal, Cumulants.AboveGuard, Cumulants.ConstantModulus, IsCircle, IsSquareRoot, ExtractedFrom;
    AntipodalModulus(x, a);
  }

  /** The negative samples are many enough, and their phases' signs mixed enough, for a deviation above 0.3. */
  predicate SignsVary(x: seq<Complex>, c: Circle) {
    var m := PhaseStatistics.NegativeMarks(x, c);
    PhaseStatistics.SpreadExceeds(|x| as real, PhaseStatistics.Count(m) as real, PhaseStatistics.Net(m) as real, c.pi,
                                  0.3)
  }

  /**
   Ideal BPSK that earlier tests leave undecided is FM or PM as well, unless the frequency deviation is
   exactly a tenth of the bandwidth or hardly any sample has the rarer sign; only then it is labelled
   BPSK, or GMSK when its spectrum is tonal.
   */
  lemma IdealBpskLabel(f: Features, x: seq<Complex>, a: real, c: Circle, sqrt: real -> real)
    requires AntipodalBlock(f, x, a, c, sqrt) && Undecided(f)
    ensures IsFm(VerdictOf(f).analog) <==> f.freqStd > f.bandwidth * 0.1
    ensures VerdictOf(f).analog == PM <==> f.freqStd < f.bandwidth * 0.1 && SignsVary(x, c)
    ensures VerdictOf(f).digital ==
            if f.freqStd > f.bandwidth * 0.1 || (f.freqStd < f.bandwidth * 0.1 && SignsVary(x, c)) then NoModulation
            else if f.flatness < 0.2 then GMSK else BPSK
  {
    hide *;
    AntipodalIsIdeal(f, x, a, c, sqrt);
    IdealIsBlock(f, x, a * a, c, sqrt);
    IdealFeatures(f, x, a * a, c, sqrt);
    Cumulants.BpskCumulants(x, a);
    AntipodalPhases(f, x, a, c, sqrt);
    ConstantModulusVerdict(f, x, a * a, c, sqrt);
    AntipodalLabel(f);
  }

  lemma AntipodalPhases(f: Features, x: seq<Complex>, a: real, c: Circle, sqrt: real -> real)
    requires x != [] && Cumulants.Antipodal(x, a) && a != 0.0 && IsCircle(c, sqrt) && IsSquareRoot(sqrt)
    requires f.phaseStd == PhaseStatistics.PhaseStd(x, c, sqrt)
    ensures f.phaseStd > 0.3 <==> SignsVary(x, c)
  {
    hide Cumulants.Antipodal, IsCircle, IsSquareRoot, PhaseStatistics.PhaseStd, PhaseStatistics.SpreadExceeds;
    PhaseStatistics.AntipodalPhaseStd(x, a, c, sqrt);
  }

  /** k of n steps flip, d more of them by pi than by -pi, and k * n - d^2 is at least n^2 / 25. */
  predicate StepsVary(x: seq<Complex>, c: Circle)
    requires x != []
  {
    var m := PhaseStatistics.FlipMarks(x, c);
    FlipsSuffice(|m| as real, PhaseStatistics.Count(m) as real, PhaseStatistics.Net(m) as real)
  }

  predicate FlipsSuffice(n: real, k: real, d: real) {
    25.0 * (k * n - d * d) >= n * n
  }

  /** Whatever the signs of the turns, it is enough that between 4.2 and 95.8 percent of the steps flip. */
  lemma ManyFlips(x: seq<Complex>, c: Circle)
    requires x != []
    requires var n, k := (|x| - 1) as real, PhaseStatistics.Count(PhaseStatistics.FlipMarks(x, c)) as real;
             25.0 * (k * (n - k)) >= n * n
    ensures StepsVary(x, c)
  {
    var m := PhaseStatistics.FlipMarks(x, c);
    PhaseStatistics.NetWithinCount(m);
    NetMatters(|m| as real, PhaseStatistics.Count(m) as real, PhaseStatistics.Net(m) as real);
  }

  lemma NetMatters(n: real, k: real, d: real)
    requires -k <= d <= k && 25.0 * (k * (n - k)) >= n * n
    ensures FlipsSuffice(n, k, d)
  {
    ProductOfOrdered(0.0, k - d, 0.0, k + d);
    assert k * n - d * d == k * (n - k) + (k - d) * (k + d);
  }

  /** With positive zeros, it is enough that 4 percent of the steps flip, or one step more if they are odd. */
  lemma ManyAlternatingFlips(x: seq<Complex>, a: real, c: Circle)
    requires x != [] && Cumulants.Antipodal(x, a) && a != 0.0 && PhaseStatistics.PositiveZeros(x, c)
    requires var k := PhaseStatistics.Count(PhaseStatistics.FlipMarks(x, c));
             25 * (k * (|x| - 1) - k % 2) >= (|x| - 1) * (|x| - 1)
    ensures StepsVary(x, c)
  {
    hide Cumulants.Antipodal, PhaseStatistics.PositiveZeros;
    var m := PhaseStatistics.FlipMarks(x, c);
    PhaseStatistics.FlipsAlternate(x, a, c, |m|);
    assert m[..|m|] == m;
    OddNet(|m|, PhaseStatistics.Count(m), PhaseStatistics.Net(m));
  }

  lemma OddNet(n: nat, k: nat, d: int)
    requires -1 <= d <= 1 && k % 2 == (if d == 0 then 0 else 1) && 25 * (k * n - k % 2) >= n * n
    ensures FlipsSuffice(n as real, k as real, d as real)
  {
    assert d * d == k % 2;
    var kn, nn := k * n, n * n;
    assert kn as real == k as real * n as real && nn as real == n as real * n as real;
    assert d as real * d as real == (k % 2) as real;
  }

  lemma FlipsExceed(n: real, k: real, d: real, sr: real, t: real)
    requires n > 0.0 && FlipsSuffice(n, k, d) && sr > 0.0 && 0.0 <= t < sr / 10.0
    ensures PhaseStatistics.SpreadExceeds(n, k, d, sr / 2.0, t)
  {
    var nn, w, half := n * n, k * n - d * d, sr / 2.0;
    PositiveSquare(n, nn);
    SquareStrict(sr / 10.0, t);
    PositiveProduct((sr / 10.0) * (sr / 10.0) - t * t, nn, ((sr / 10.0) * (sr / 10.0) - t * t) * nn);
    PositiveSquare(half, half * half);
    ProductOfOrdered(nn / 25.0, w, half * half, half * half);
    assert (nn / 25.0) * (half * half) == ((sr / 10.0) * (sr / 10.0)) * nn;
  }

  lemma FlipsSpread(x: seq<Complex>, c: Circle, sr: real, t: real)
    requires |x| >= 2 && StepsVary(x, c) && sr > 0.0 && 0.0 <= t < sr / 10.0
    ensures var m := PhaseStatistics.FlipMarks(x, c);
            PhaseStatistics.SpreadExceeds(|m| as real, PhaseStatistics.Count(m) as real, PhaseStatistics.Net(m) as real,
                                          sr / 2.0, t)
  {
    hide PhaseStatistics.SpreadExceeds, FlipsSuffice;
    var m := PhaseStatistics.FlipMarks(x, c);
    FlipsExceed(|m| as real, PhaseStatistics.Count(m) as real, PhaseStatistics.Net(m) as real, sr, t);
  }

  /** So ideal BPSK of which enough steps flip is labelled FM; the bandwidth of a block is below its rate. */
  lemma FlippingBpskIsFm(f: Features, x: seq<Complex>, a: real, c: Circle, sqrt: real -> real)
    requires AntipodalBlock(f, x, a, c, sqrt) && Undecided(f)
    requires |x| >= 3 && StepsVary(x, c) && 0.0 <= f.bandwidth < f.sampleRate
    ensures IsFm(VerdictOf(f).analog)
  {
    hide *;
    AntipodalIsIdeal(f, x, a, c, sqrt);
    IdealIsBlock(f, x, a * a, c, sqrt);
    PhaseStatistics.PiPositive(c, sqrt);
    IdealFeatures(f, x, a * a, c, sqrt);
    ConstantModulusVerdict(f, x, a * a, c, sqrt);
    FlipsSpread(x, c, f.sampleRate, f.bandwidth * 0.1);
    PhaseStatistics.AntipodalFrequencyStd(x, a, f.sampleRate, c, sqrt, f.bandwidth * 0.1);
  }
}
