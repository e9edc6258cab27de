/** Scoring a signal against the protocol signatures and listing the best three (ProtocolMapper). */
module SignatureRanking {
  import opened RealSums
  import opened RealFunctions

  /** What a score depends on: the classified labels and the structural features. */
  datatype Observation = Observation(
    centerMhz: real, bandwidth: real, symbolRate: real, digital: string, analog: string,
    isOfdm: bool, isBurst: bool, ofdm: bool, fhss: bool, dsss: bool, chirp: bool)
  {
    /** The modulation a signature is compared with. */
    function Modulation(): string {
      if digital == "" then analog else digital
    }
  }

  datatype Band = Band(lo: real, hi: real)

  datatype Signature = Signature(
    name: string, category: string, bands: seq<Band>, modulations: seq<string>,
    bwMin: real, bwMax: real, srMin: real, srMax: real,
    burstRequired: bool, burstForbidden: bool, ofdmRequired: bool, fhssRequired: bool)

  /** Every range of the signature is ordered and non-negative, as the whole database's are. */
  predicate WellFormed(s: Signature) {
    0.0 <= s.bwMin <= s.bwMax && 0.0 <= s.srMin <= s.srMax
  }

  // ----- the four matches and the structural penalty

  predicate Contains(b: Band, mhz: real) {
    b.lo <= mhz <= b.hi
  }

  predicate InBand(s: Signature, o: Observation) {
    s.bands == [] || exists b :: b in s.bands && Contains(b, o.centerMhz)
  }

  /** The listed modulation m fully matches: it is the observed one, or a detector vouches for it. */
  predicate FullMatch(m: string, o: Observation) {
    || m == o.Modulation()
    || (m == "OFDM" && o.isOfdm)
    || (m == "CSS" && o.chirp)
    || (m == "FHSS" && o.fhss)
    || (m == "DSSS" && o.dsss)
  }

  predicate PartialMatch(m: string, o: Observation) {
    || (m == "GMSK" && o.Modulation() == "FSK") || (m == "FSK" && o.Modulation() == "GMSK")
    || (m == "QPSK" && o.Modulation() == "PSK") || (m == "PSK" && o.Modulation() == "QPSK")
  }

  predicate AnyFull(mods: seq<string>, o: Observation) {
    exists m :: m in mods && FullMatch(m, o)
  }

  predicate AnyPartial(mods: seq<string>, o: Observation) {
    exists m :: m in mods && PartialMatch(m, o)
  }

  function ModulationLevel(mods: seq<string>, o: Observation): real {
    if AnyFull(mods, o) then 1.0 else if AnyPartial(mods, o) then 0.6 else 0.0
  }

  function ModulationMatch(s: Signature, o: Observation): real {
    if s.modulations == [] then 0.5 else ModulationLevel(s.modulations, o)
  }

  function Gaussian(d: real, sigma: real, exp: real -> real): real
    requires sigma != 0.0
  {
    exp(Exponent(d, sigma))
  }

  function Exponent(d: real, sigma: real): real
    requires sigma != 0.0
  {
    -0.5 * (d / sigma) * (d / sigma)
  }

  /** How well v lies in the range lo .. hi, once it is not far outside it. */
  function RangeMatch(v: real, lo: real, hi: real, exp: real -> real): real
    requires 0.0 <= lo <= hi && hi > 0.0
  {
    if v < lo * 0.5 || v > hi * 2.0 then 0.0
    else
      var mid := (lo + hi) / 2.0;
      var sigma := if hi - lo > 0.0 then hi - lo else mid * 0.3;
      Gaussian(v - mid, sigma, exp)
  }

  predicate HasRange(lo: real, hi: real) {
    lo > 0.0 || hi > 0.0
  }

  function BandwidthMatch(s: Signature, o: Observation, exp: real -> real): real
    requires WellFormed(s)
  {
    if HasRange(s.bwMin, s.bwMax) then RangeMatch(o.bandwidth, s.bwMin, s.bwMax, exp) else 1.0
  }

  function RateMatch(s: Signature, o: Observation, exp: real -> real): real
    requires WellFormed(s)
  {
    if !HasRange(s.srMin, s.srMax) then 1.0
    else if o.symbolRate <= 0.0 then 0.3
    else RangeMatch(o.symbolRate, s.srMin, s.srMax, exp)
  }

  function Factor(penalised: bool, factor: real): real {
    if penalised then factor else 1.0
  }

  function StructureMatch(s: Signature, o: Observation): real {
    Factor(s.burstRequired && !o.isBurst, 0.3) * Factor(s.burstForbidden && o.isBurst, 0.3)
    * Factor(s.ofdmRequired && !o.ofdm, 0.2) * Factor(s.fhssRequired && !o.fhss, 0.2)
  }

  /** No structural requirement of the signature is violated. */
  predicate Unpenalised(s: Signature, o: Observation) {
    && (s.burstRequired ==> o.isBurst) && (s.burstForbidden ==> !o.isBurst)
    && (s.ofdmRequired ==> o.ofdm) && (s.fhssRequired ==> o.fhss)
  }

  function FrequencyMatch(s: Signature, o: Observation): real {
    if InBand(s, o) then 1.0 else 0.0
  }

  function Weighted(freq: real, mod: real, bw: real, sr: real): real {
    freq * 0.40 + mod * 0.30 + bw * 0.15 + sr * 0.15
  }

  function Unscaled(s: Signature, o: Observation, exp: real -> real): real
    requires WellFormed(s)
  {
    Weighted(FrequencyMatch(s, o), ModulationMatch(s, o), BandwidthMatch(s, o, exp), RateMatch(s, o, exp))
  }

  function ScoreOf(s: Signature, o: Observation, exp: real -> real): real
    requires WellFormed(s)
  {
    Unscaled(s, o, exp) * StructureMatch(s, o)
  }

  // ----- what a score can be

  lemma GaussianRange(d: real, sigma: real, exp: real -> real)
    requires sigma > 0.0 && IsExponential(exp)
    ensures 0.0 < Gaussian(d, sigma, exp) <= 1.0
    ensures Gaussian(d, sigma, exp) == 1.0 <==> d == 0.0
  {
    ExponentSign(d, sigma, d / sigma);
  }

  lemma ExponentSign(d: real, sigma: real, q: real)
    requires sigma > 0.0 && q == d / sigma
    ensures Exponent(d, sigma) <= 0.0
    ensures Exponent(d, sigma) == 0.0 <==> d == 0.0
  {
    assert d == q * sigma;
    if q > 0.0 {
      PositiveProduct(q, q, q * q);
    } else if q < 0.0 {
      PositiveProduct(-q, -q, q * q);
    }
    assert Exponent(d, sigma) == -0.5 * (q * q);
  }

  lemma RangeMatchRange(v: real, lo: real, hi: real, exp: real -> real)
    requires 0.0 <= lo <= hi && hi > 0.0 && IsExponential(exp)
    ensures 0.0 <= RangeMatch(v, lo, hi, exp) <= 1.0
    ensures RangeMatch(v, lo, hi, exp) == 0.0 <==> v < lo * 0.5 || v > hi * 2.0
    ensures RangeMatch(v, lo, hi, exp) == 1.0 <==> v == (lo + hi) / 2.0
  {
    hide IsExponential, Gaussian;
    var mid := (lo + hi) / 2.0;
    GaussianRange(v - mid, if hi - lo > 0.0 then hi - lo else mid * 0.3, exp);
  }

  predicate UnitInterval(v: real) {
    0.0 <= v <= 1.0
  }

  lemma MatchesInUnitInterval(s: Signature, o: Observation, exp: real -> real)
    requires WellFormed(s) && IsExponential(exp)
    ensures UnitInterval(FrequencyMatch(s, o)) && UnitInterval(ModulationMatch(s, o))
    ensures UnitInterval(BandwidthMatch(s, o, exp)) && UnitInterval(RateMatch(s, o, exp))
  {
    hide IsExponential, RangeMatch;
    if HasRange(s.bwMin, s.bwMax) {
      RangeMatchRange(o.bandwidth, s.bwMin, s.bwMax, exp);
    }
    if HasRange(s.srMin, s.srMax) {
      RangeMatchRange(o.symbolRate, s.srMin, s.srMax, exp);
    }
  }

  lemma StructureRange(s: Signature, o: Observation)
    ensures 0.0 < StructureMatch(s, o) <= 1.0
    ensures StructureMatch(s, o) == 1.0 <==> Unpenalised(s, o)
    ensures !Unpenalised(s, o) ==> StructureMatch(s, o) <= 0.3
  {
  }

  lemma ScaledTotal(t: real, m: real, p: real)
    requires 0.0 <= t <= 1.0 && 0.0 < m <= 1.0 && p == t * m
    ensures 0.0 <= p <= t && p <= m
    ensures p == 0.0 <==> t == 0.0
  {
    if t > 0.0 {
      PositiveProduct(t, m, p);
    }
    assert t - p == t * (1.0 - m) && m - p == m * (1.0 - t);
    ProductOfOrdered(0.0, t, 0.0, 1.0 - m);
    ProductOfOrdered(0.0, m, 0.0, 1.0 - t);
  }

  /** Scores lie in [0, 1], and a violated structural requirement keeps them at 0.3 or below. */
  lemma ScoreRange(s: Signature, o: Observation, exp: real -> real)
    requires WellFormed(s) && IsExponential(exp)
    ensures 0.0 <= ScoreOf(s, o, exp) <= Unscaled(s, o, exp) <= 1.0
    ensures ScoreOf(s, o, exp) <= StructureMatch(s, o)
    ensures Unpenalised(s, o) ==> ScoreOf(s, o, exp) == Unscaled(s, o, exp)
    ensures !Unpenalised(s, o) ==> ScoreOf(s, o, exp) <= 0.3
  {
    hide IsExponential, StructureMatch, FrequencyMatch, ModulationMatch, BandwidthMatch, RateMatch;
    MatchesInUnitInterval(s, o, exp);
    StructureRange(s, o);
    ScaledTotal(Unscaled(s, o, exp), StructureMatch(s, o), ScoreOf(s, o, exp));
  }

  /** The weights separate the bands: out of band never beats in band with the right modulation. */
  lemma BandGap(s: Signature, o: Observation, exp: real -> real)
    requires WellFormed(s) && IsExponential(exp)
    ensures !InBand(s, o) ==> ScoreOf(s, o, exp) <= 0.60
    ensures InBand(s, o) && s.modulations != [] && AnyFull(s.modulations, o) && Unpenalised(s, o)
            ==> ScoreOf(s, o, exp) >= 0.70
  {
    hide IsExponential, ScoreOf, InBand, AnyFull, AnyPartial, Unpenalised, BandwidthMatch, RateMatch;
    MatchesInUnitInterval(s, o, exp);
    ScoreRange(s, o, exp);
  }

  /** The observation lies at the middle of a signature's range, or the signature has none. */
  predicate Centred(v: real, lo: real, hi: real) {
    HasRange(lo, hi) ==> v == (lo + hi) / 2.0
  }

  /** Exactly what a score of one means: in band, right modulation, centred ranges, right structure. */
  lemma PerfectScore(s: Signature, o: Observation, exp: real -> real)
    requires WellFormed(s) && IsExponential(exp)
    ensures ScoreOf(s, o, exp) == 1.0 <==>
            && InBand(s, o) && s.modulations != [] && AnyFull(s.modulations, o)
            && Centred(o.bandwidth, s.bwMin, s.bwMax) && Centred(o.symbolRate, s.srMin, s.srMax)
            && Unpenalised(s, o)
  {
    hide IsExponential, ScoreOf, InBand, AnyFull, AnyPartial, Unpenalised, RangeMatch, StructureMatch;
    MatchesInUnitInterval(s, o, exp);
    ScoreRange(s, o, exp);
    StructureRange(s, o);
    if HasRange(s.bwMin, s.bwMax) {
      RangeMatchRange(o.bandwidth, s.bwMin, s.bwMax, exp);
    }
    if HasRange(s.srMin, s.srMax) {
      RangeMatchRange(o.symbolRate, s.srMin, s.srMax, exp);
    }
  }

  /** v is beyond half the low end or twice the high end of a range the signature has. */
  predicate FarOutside(v: real, lo: real, hi: real) {
    HasRange(lo, hi) && (v < lo * 0.5 || v > hi * 2.0)
  }

  /** Exactly what a score of zero means: all four matches fail, an unknown symbol rate not among them. */
  lemma ZeroScore(s: Signature, o: Observation, exp: real -> real)
    requires WellFormed(s) && IsExponential(exp)
    ensures ScoreOf(s, o, exp) == 0.0 <==>
            && !InBand(s, o) && s.modulations != [] && !AnyFull(s.modulations, o) && !AnyPartial(s.modulations, o)
            && FarOutside(o.bandwidth, s.bwMin, s.bwMax)
            && o.symbolRate > 0.0 && FarOutside(o.symbolRate, s.srMin, s.srMax)
  {
    hide IsExponential, InBand, AnyFull, AnyPartial, Unpenalised, RangeMatch, StructureMatch;
    MatchesInUnitInterval(s, o, exp);
    StructureRange(s, o);
    ScaledTotal(Unscaled(s, o, exp), StructureMatch(s, o), ScoreOf(s, o, exp));
    if HasRange(s.bwMin, s.bwMax) {
      RangeMatchRange(o.bandwidth, s.bwMin, s.bwMax, exp);
    }
    if HasRange(s.srMin, s.srMax) {
      RangeMatchRange(o.symbolRate, s.srMin, s.srMax, exp);
    }
  }

  // ----- what each evidence is worth

  /** Without a structural penalty, being in a listed band is worth 0.40, whatever the rest says. */
  lemma BandWorth(s: Signature, o: Observation, s': Signature, o': Observation, exp: real -> real)
    requires WellFormed(s) && Unpenalised(s, o)
    requires s' == s.(bands := s'.bands) && o' == o.(centerMhz := o'.centerMhz)
    requires InBand(s, o) && !InBand(s', o')
    ensures ScoreOf(s, o, exp) - ScoreOf(s', o', exp) == 0.40
  {
    hide InBand, ModulationMatch, BandwidthMatch, RateMatch, StructureMatch;
    SameOtherMatches(s, o, s', o', exp);
  }

  /** Neither bands nor modulations are read by the other matches, nor are the labels or the frequency. */
  lemma SameOtherMatches(s: Signature, o: Observation, s': Signature, o': Observation, exp: real -> real)
    requires WellFormed(s) && Unpenalised(s, o)
    requires s' == s.(bands := s'.bands, modulations := s'.modulations)
    requires o' == o.(centerMhz := o'.centerMhz, digital := o'.digital, analog := o'.analog)
    ensures WellFormed(s') && StructureMatch(s, o) == StructureMatch(s', o') == 1.0
    ensures BandwidthMatch(s, o, exp) == BandwidthMatch(s', o', exp) && RateMatch(s, o, exp) == RateMatch(s', o', exp)
    ensures s.modulations == s'.modulations && o.Modulation() == o'.Modulation() ==>
              ModulationMatch(s, o) == ModulationMatch(s', o')
    ensures s.bands == s'.bands && o.centerMhz == o'.centerMhz ==> FrequencyMatch(s, o) == FrequencyMatch(s', o')
  {
    hide RangeMatch, ModulationLevel;
    StructureRange(s, o);
    if o.Modulation() == o'.Modulation() {
      SameModulation(s.modulations, o, o');
    }
  }

  lemma SameModulation(mods: seq<string>, o: Observation, o': Observation)
    requires o.Modulation() == o'.Modulation() && o.isOfdm == o'.isOfdm && o.chirp == o'.chirp
    requires o.fhss == o'.fhss && o.dsss == o'.dsss
    ensures ModulationLevel(mods, o) == ModulationLevel(mods, o')
  {
    assert forall m :: FullMatch(m, o) <==> FullMatch(m, o');
    assert forall m :: PartialMatch(m, o) <==> PartialMatch(m, o');
  }

  /**
   Against a list none of whose modulations matches, a full match is worth 0.30, a partial one 0.18 and an
   empty list 0.15.
   */
  lemma ModulationWorth(s: Signature, o: Observation, s': Signature, o': Observation, exp: real -> real)
    requires WellFormed(s) && Unpenalised(s, o)
    requires s' == s.(modulations := s'.modulations) && o' == o.(digital := o'.digital, analog := o'.analog)
    requires s'.modulations != [] && !AnyFull(s'.modulations, o') && !AnyPartial(s'.modulations, o')
    ensures ScoreOf(s, o, exp) - ScoreOf(s', o', exp) ==
            if s.modulations == [] then 0.15 else if AnyFull(s.modulations, o) then 0.30
            else if AnyPartial(s.modulations, o) then 0.18 else 0.0
  {
    hide FrequencyMatch, AnyFull, AnyPartial, BandwidthMatch, RateMatch, StructureMatch;
    SameOtherMatches(s, o, s', o', exp);
  }

  /** Against a bandwidth far outside the range, a centred one, or a signature without a range, is worth 0.15. */
  lemma BandwidthWorth(s: Signature, o: Observation, s': Signature, o': Observation, exp: real -> real)
    requires WellFormed(s) && WellFormed(s') && IsExponential(exp) && Unpenalised(s, o)
    requires s' == s.(bwMin := s'.bwMin, bwMax := s'.bwMax) && o' == o.(bandwidth := o'.bandwidth)
    requires Centred(o.bandwidth, s.bwMin, s.bwMax) && FarOutside(o'.bandwidth, s'.bwMin, s'.bwMax)
    ensures ScoreOf(s, o, exp) - ScoreOf(s', o', exp) == 0.15
  {
    hide IsExponential, FrequencyMatch, ModulationMatch, BandwidthMatch, RateMatch, StructureMatch;
    SameRest(s, o, s', o', exp);
    BandwidthLevels(s, o, exp);
    BandwidthLevels(s', o', exp);
  }

  lemma BandwidthLevels(s: Signature, o: Observation, exp: real -> real)
    requires WellFormed(s) && IsExponential(exp)
    ensures Centred(o.bandwidth, s.bwMin, s.bwMax) ==> BandwidthMatch(s, o, exp) == 1.0
    ensures FarOutside(o.bandwidth, s.bwMin, s.bwMax) ==> BandwidthMatch(s, o, exp) == 0.0
  {
    hide IsExponential, RangeMatch;
    if HasRange(s.bwMin, s.bwMax) {
      RangeMatchRange(o.bandwidth, s.bwMin, s.bwMax, exp);
    }
  }

  lemma RateLevels(s: Signature, o: Observation, exp: real -> real)
    requires WellFormed(s) && IsExponential(exp)
    ensures Centred(o.symbolRate, s.srMin, s.srMax) ==> RateMatch(s, o, exp) == 1.0
    ensures HasRange(s.srMin, s.srMax) && o.symbolRate <= 0.0 ==> RateMatch(s, o, exp) == 0.3
    ensures FarOutside(o.symbolRate, s.srMin, s.srMax) && o.symbolRate > 0.0 ==> RateMatch(s, o, exp) == 0.0
  {
    hide IsExponential, RangeMatch;
    if HasRange(s.srMin, s.srMax) {
      RangeMatchRange(o.symbolRate, s.srMin, s.srMax, exp);
    }
  }

  /** The same for the symbol rate, except that an unknown one still has 0.045 of the 0.15. */
  lemma RateWorth(s: Signature, o: Observation, s': Signature, o': Observation, exp: real -> real)
    requires WellFormed(s) && WellFormed(s') && IsExponential(exp) && Unpenalised(s, o)
    requires s' == s.(srMin := s'.srMin, srMax := s'.srMax) && o' == o.(symbolRate := o'.symbolRate)
    requires Centred(o.symbolRate, s.srMin, s.srMax) && HasRange(s'.srMin, s'.srMax)
    ensures o'.symbolRate <= 0.0 ==> ScoreOf(s, o, exp) - ScoreOf(s', o', exp) == 0.105
    ensures o'.symbolRate > 0.0 && FarOutside(o'.symbolRate, s'.srMin, s'.srMax) ==>
              ScoreOf(s, o, exp) - ScoreOf(s', o', exp) == 0.15
  {
    hide IsExponential, FrequencyMatch, ModulationMatch, BandwidthMatch, RateMatch, StructureMatch;
    SameRest(s, o, s', o', exp);
    RateLevels(s, o, exp);
    RateLevels(s', o', exp);
  }

  lemma SameRest(s: Signature, o: Observation, s': Signature, o': Observation, exp: real -> real)
    requires WellFormed(s) && WellFormed(s') && Unpenalised(s, o)
    requires s' == s.(bwMin := s'.bwMin, bwMax := s'.bwMax, srMin := s'.srMin, srMax := s'.srMax)
    requires o' == o.(bandwidth := o'.bandwidth, symbolRate := o'.symbolRate)
    ensures StructureMatch(s, o) == StructureMatch(s', o') == 1.0
    ensures FrequencyMatch(s, o) == FrequencyMatch(s', o') && ModulationMatch(s, o) == ModulationMatch(s', o')
    ensures s.bwMin == s'.bwMin && s.bwMax == s'.bwMax && o.bandwidth == o'.bandwidth ==>
              BandwidthMatch(s, o, exp) == BandwidthMatch(s', o', exp)
    ensures s.srMin == s'.srMin && s.srMax == s'.srMax && o.symbolRate == o'.symbolRate ==>
              RateMatch(s, o, exp) == RateMatch(s', o', exp)
  {
    hide ModulationLevel, RangeMatch;
    StructureRange(s, o);
    SameModulation(s.modulations, o, o');
  }

  /** Each structural requirement the observation violates multiplies the score, and a met one changes nothing. */
  lemma PenaltyOfEach(s: Signature, o: Observation, exp: real -> real)
    requires WellFormed(s)
    ensures !s.burstRequired ==>
              ScoreOf(s.(burstRequired := true), o, exp) == ScoreOf(s, o, exp) * if o.isBurst then 1.0 else 0.3
    ensures !s.burstForbidden ==>
              ScoreOf(s.(burstForbidden := true), o, exp) == ScoreOf(s, o, exp) * if o.isBurst then 0.3 else 1.0
    ensures !s.ofdmRequired ==>
              ScoreOf(s.(ofdmRequired := true), o, exp) == ScoreOf(s, o, exp) * if o.ofdm then 1.0 else 0.2
    ensures !s.fhssRequired ==>
              ScoreOf(s.(fhssRequired := true), o, exp) == ScoreOf(s, o, exp) * if o.fhss then 1.0 else 0.2
  {
    hide ScoreOf, StructureMatch;
    StructureOfEach(s, o);
    Rescaled(s, s.(burstRequired := true), o, exp, if o.isBurst then 1.0 else 0.3);
    Rescaled(s, s.(burstForbidden := true), o, exp, if o.isBurst then 0.3 else 1.0);
    Rescaled(s, s.(ofdmRequired := true), o, exp, if o.ofdm then 1.0 else 0.2);
    Rescaled(s, s.(fhssRequired := true), o, exp, if o.fhss then 1.0 else 0.2);
  }

  lemma StructureOfEach(s: Signature, o: Observation)
    ensures !s.burstRequired ==>
              StructureMatch(s.(burstRequired := true), o) == StructureMatch(s, o) * if o.isBurst then 1.0 else 0.3
    ensures !s.burstForbidden ==>
              StructureMatch(s.(burstForbidden := true), o) == StructureMatch(s, o) * if o.isBurst then 0.3 else 1.0
    ensures !s.ofdmRequired ==>
              StructureMatch(s.(ofdmRequired := true), o) == StructureMatch(s, o) * if o.ofdm then 1.0 else 0.2
    ensures !s.fhssRequired ==>
              StructureMatch(s.(fhssRequired := true), o) == StructureMatch(s, o) * if o.fhss then 1.0 else 0.2
  {
  }

  lemma Rescaled(s: Signature, s': Signature, o: Observation, exp: real -> real, k: real)
    requires WellFormed(s) && s' == s.(burstRequired := s'.burstRequired, burstForbidden := s'.burstForbidden,
                                       ofdmRequired := s'.ofdmRequired, fhssRequired := s'.fhssRequired)
    ensures WellFormed(s')
    ensures StructureMatch(s', o) == StructureMatch(s, o) * k ==> ScoreOf(s', o, exp) == ScoreOf(s, o, exp) * k
  {
    hide StructureMatch, Unscaled;
    SameMatches(s, s', o, exp);
    ScaledProduct(Unscaled(s, o, exp), StructureMatch(s, o), k);
  }

  lemma ScaledProduct(t: real, m: real, k: real)
    ensures t * (m * k) == (t * m) * k
  {
  }

  lemma SameMatches(s: Signature, s': Signature, o: Observation, exp: real -> real)
    requires WellFormed(s) && s' == s.(burstRequired := s'.burstRequired, burstForbidden := s'.burstForbidden,
                                       ofdmRequired := s'.ofdmRequired, fhssRequired := s'.fhssRequired)
    ensures WellFormed(s') && Unscaled(s', o, exp) == Unscaled(s, o, exp)
  {
    hide RangeMatch, Weighted;
  }

  // ----- inside a range

  /** The edges of a range of positive width count for exp(-1/8) of its middle. */
  lemma EdgeMatch(lo: real, hi: real, exp: real -> real)
    requires 0.0 <= lo < hi
    ensures RangeMatch(lo, lo, hi, exp) == RangeMatch(hi, lo, hi, exp) == exp(-0.125)
  {
    HalfWidth((lo - (lo + hi) / 2.0) / (hi - lo), lo, hi, -0.5);
    HalfWidth((hi - (lo + hi) / 2.0) / (hi - lo), lo, hi, 0.5);
    assert Exponent(lo - (lo + hi) / 2.0, hi - lo) == -0.125 && Exponent(hi - (lo + hi) / 2.0, hi - lo) == -0.125;
  }

  /** A range that is a single value is as wide as 0.3 of that value. */
  lemma PointMatch(v: real, exp: real -> real)
    requires v > 0.0
    ensures RangeMatch(1.3 * v, v, v, exp) == RangeMatch(0.7 * v, v, v, exp) == exp(-0.5)
  {
    var sigma := v * 0.3;
    ClearQuotient((1.3 * v - v) / sigma, 1.3 * v - v, sigma);
    ClearQuotient((0.7 * v - v) / sigma, 0.7 * v - v, sigma);
    EqualByFactor((1.3 * v - v) / sigma, 1.0, sigma);
    EqualByFactor((0.7 * v - v) / sigma, -1.0, sigma);
    assert (v + v) / 2.0 == v;
    assert Exponent(1.3 * v - v, sigma) == -0.5 && Exponent(0.7 * v - v, sigma) == -0.5;
  }

  /** What the level of a list is when it has one entry, by the labels themselves. */
  lemma SingleEntry(m: string, o: Observation)
    ensures ModulationLevel([m], o) == 1.0 <==>
            || m == (if o.digital != "" then o.digital else o.analog)
            || (m == "OFDM" && o.isOfdm) || (m == "CSS" && o.chirp)
            || (m == "FHSS" && o.fhss) || (m == "DSSS" && o.dsss)
    ensures ModulationLevel([m], o) == 0.6 <==>
            (m, o.Modulation()) in {("GMSK", "FSK"), ("FSK", "GMSK"), ("QPSK", "PSK"), ("PSK", "QPSK")}
    ensures ModulationLevel([m], o) in {0.0, 0.6, 1.0}
  {
    assert m in [m];
  }

  lemma HalfWidth(q: real, lo: real, hi: real, half: real)
    requires lo < hi && q == (lo + half * (hi - lo) + 0.5 * (hi - lo) - (lo + hi) / 2.0) / (hi - lo)
    ensures q == half
  {
    ClearQuotient(q, half * (hi - lo), hi - lo);
    EqualByFactor(q, half, hi - lo);
  }

  // ----- the score as it is computed

  method FindBand(bands: seq<Band>, mhz: real) returns (inBand: bool)
    ensures inBand <==> exists b :: b in bands && Contains(b, mhz)
  {
    inBand := false;
    for i := 0 to |bands|
      invariant forall j :: 0 <= j < i ==> !Contains(bands[j], mhz)
    {
      if mhz >= bands[i].lo && mhz <= bands[i].hi {
        assert Contains(bands[i], mhz);
        inBand := true;
        break;
      }
    }
  }

  function Max(a: real, b: real): real {
    if a < b then b else a
  }

  lemma LevelStep(mods: seq<string>, i: nat, o: Observation)
    requires i < |mods|
    ensures AnyFull(mods[..i + 1], o) <==> AnyFull(mods[..i], o) || FullMatch(mods[i], o)
    ensures AnyPartial(mods[..i + 1], o) <==> AnyPartial(mods[..i], o) || PartialMatch(mods[i], o)
    ensures FullMatch(mods[i], o) ==> AnyFull(mods, o)
  {
    assert mods[..i + 1] == mods[..i] + [mods[i]];
  }

  /** The loop stops at the observed modulation itself; the other full matches only raise the level. */
  method MatchModulations(mods: seq<string>, o: Observation) returns (level: real)
    ensures level == ModulationLevel(mods, o)
  {
    hide FullMatch, AnyFull, AnyPartial, PartialMatch;
    var mod := o.Modulation();
    level := 0.0;
    assert mods[..0] == [];
    assert !AnyFull(mods[..0], o) && !AnyPartial(mods[..0], o) by { NoneOfNothing(o); }
    for i := 0 to |mods|
      invariant level == ModulationLevel(mods[..i], o)
    {
      LevelStep(mods, i, o);
      var m := mods[i];
      if m == mod {
        ItselfIsFull(m, o);
        level := 1.0;
        return;
      }
      level := RaiseLevel(level, m, o);
    }
    assert mods[..|mods|] == mods;
  }

  lemma NoneOfNothing(o: Observation)
    ensures !AnyFull([], o) && !AnyPartial([], o)
  {
  }

  lemma ItselfIsFull(m: string, o: Observation)
    requires m == o.Modulation()
    ensures FullMatch(m, o)
  {
  }

  method RaiseLevel(level: real, m: string, o: Observation) returns (r: real)
    requires level in {0.0, 0.6, 1.0} && m != o.Modulation()
    ensures r == if level == 1.0 || FullMatch(m, o) then 1.0
                 else if level == 0.6 || PartialMatch(m, o) then 0.6 else 0.0
  {
    r := level;
    var mod := o.Modulation();
    if (m == "GMSK" && mod == "FSK") || (m == "FSK" && mod == "GMSK") {
      r := Max(r, 0.6);
    }
    if (m == "QPSK" && mod == "PSK") || (m == "PSK" && mod == "QPSK") {
      r := Max(r, 0.6);
    }
    if m == "OFDM" && o.isOfdm {
      r := Max(r, 1.0);
    }
    if m == "CSS" && o.chirp {
      r := Max(r, 1.0);
    }
    if m == "FHSS" && o.fhss {
      r := Max(r, 1.0);
    }
    if m == "DSSS" && o.dsss {
      r := Max(r, 1.0);
    }
  }

  method Penalty(s: Signature, o: Observation) returns (m: real)
    ensures m == StructureMatch(s, o)
  {
    m := 1.0;
    if s.burstRequired && !o.isBurst {
      m := m * 0.3;
    }
    if s.burstForbidden && o.isBurst {
      m := m * 0.3;
    }
    if s.ofdmRequired && !o.ofdm {
      m := m * 0.2;
    }
    if s.fhssRequired && !o.fhss {
      m := m * 0.2;
    }
  }

  method Score(s: Signature, o: Observation, exp: real -> real) returns (total: real)
    requires WellFormed(s)
    ensures total == ScoreOf(s, o, exp)
  {
    hide StructureMatch, ModulationLevel, RangeMatch;
    var freqMatch := 1.0;
    if |s.bands| > 0 {
      var inBand := FindBand(s.bands, o.centerMhz);
      freqMatch := if inBand then 1.0 else 0.0;
    }
    var modMatch := 0.5;
    if |s.modulations| > 0 {
      modMatch := MatchModulations(s.modulations, o);
    }
    var bwMatch := 1.0;
    if s.bwMin > 0.0 || s.bwMax > 0.0 {
      bwMatch := RangeMatch(o.bandwidth, s.bwMin, s.bwMax, exp);
    }
    var srMatch := 1.0;
    if s.srMin > 0.0 || s.srMax > 0.0 {
      srMatch := if o.symbolRate <= 0.0 then 0.3 else RangeMatch(o.symbolRate, s.srMin, s.srMax, exp);
    }
    var structMatch := Penalty(s, o);
    total := freqMatch * 0.40 + modMatch * 0.30 + bwMatch * 0.15 + srMatch * 0.15;
    total := total * structMatch;
  }
}
