/** What the rest of the service reads of an analysis result. */
module Results {
  import opened Options

  /** The columns every write to the table replaces; content stands for the values themselves. */
  datatype Report = Report(classified: bool, content: nat)

  datatype AnalysisResult = AnalysisResult(
    freq: real, bandwidth: real, digital: string, analog: string, mAry: int, scanner: string,
    report: Report, traits: nat)
  {
    /** The modulation a demodulator is asked for. */
    function Modulation(): string {
      if digital == "" then analog else digital
    }

    /** The modulation as the table stores it: with the order of a digital one, if that is above one. */
    function StoredModulation(): string {
      if digital != "" && mAry > 1 then digital + "-" + Decimal(mAry) else Modulation()
    }

    function ModulationClass(): string {
      if StoredModulation() == "" then "unclassified" else if digital != "" then "digital" else "analog"
    }

    /** A bandwidth that is not positive is stored as NULL. */
    function StoredBandwidth(): Option<real> {
      if bandwidth > 0.0 then Some(bandwidth) else None
    }
  }

  function Decimal(n: nat): (s: string)
    ensures |s| >= 1 && (|s| == 1 <==> n < 10)
  {
    if n < 10 then [Digit(n)] else Decimal(n / 10) + [Digit(n % 10)]
  }

  function Digit(k: nat): char
    requires k < 10
  {
    "0123456789"[k]
  }

  lemma {:induction false} DecimalIsInjective(m: nat, n: nat)
    requires Decimal(m) == Decimal(n)
    ensures m == n
  {
    var a, b := Decimal(m), Decimal(n);
    assert a[|a| - 1] == Digit(m % 10) && b[|b| - 1] == Digit(n % 10);
    assert m % 10 == n % 10;
    if m >= 10 && n >= 10 {
      assert a[..|a| - 1] == Decimal(m / 10) && b[..|b| - 1] == Decimal(n / 10);
      DecimalIsInjective(m / 10, n / 10);
    }
  }

  /** The same digital modulation with another order counts as another modulation; order one is not written. */
  lemma OrdersAreDistinguished(r: AnalysisResult, s: AnalysisResult)
    requires r.digital == s.digital != "" && r.mAry >= 1 && s.mAry >= 1
    ensures r.StoredModulation() == s.StoredModulation() <==> r.mAry == s.mAry
    ensures r.mAry == 1 ==> r.StoredModulation() == r.digital
  {
    if r.StoredModulation() == s.StoredModulation() {
      var n := |r.digital|;
      if r.mAry > 1 && s.mAry > 1 {
        assert r.StoredModulation()[n..][1..] == Decimal(r.mAry) && s.StoredModulation()[n..][1..] == Decimal(s.mAry);
        DecimalIsInjective(r.mAry, s.mAry);
      }
    }
  }
}
