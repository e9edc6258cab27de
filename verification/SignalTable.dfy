/** Writing results into the signals table (AnalysisService::persistResult); each call is one transaction. */
module SignalTable {
  import opened Options
  import opened Results
  import opened RealSums

  // ----- rows

  /** The columns only a promotion or an insertion writes, besides frequency and modulation. */
  datatype Traits = Traits(modulationClass: string, content: nat)

  /** None is NULL. Times are in milliseconds. */
  datatype Row = Row(
    id: nat, firstSeen: int, lastSeen: int, freq: real, bandwidth: Option<real>, scanner: Option<string>,
    modulation: Option<string>, traits: Option<Traits>, report: Option<Report>, classified: Option<bool>, hits: int)

  const TEN_MINUTES: int := 600000
  const FREQUENCY_WINDOW: real := 10000.0

  function Abs(x: real): real {
    if x < 0.0 then -x else x
  }

  function Greatest(x: real, y: real): real {
    if x < y then y else x
  }

  function Distance(row: Row, r: AnalysisResult): real {
    Abs(row.freq - r.freq)
  }

  /** The bandwidths agree, or one of them is NULL. */
  predicate SameBandwidth(row: Option<real>, wanted: Option<real>) {
    wanted.Some? && row.Some? ==> Abs(row.value - wanted.value) / Greatest(row.value, 1000.0) < 0.5
  }

  predicate SameSignal(row: Row, r: AnalysisResult) {
    && Distance(row, r) < FREQUENCY_WINDOW
    && row.modulation == Some(r.StoredModulation())
    && SameBandwidth(row.bandwidth, r.StoredBandwidth())
  }

  predicate Promotable(row: Row, r: AnalysisResult, now: int) {
    && Distance(row, r) < FREQUENCY_WINDOW
    && row.classified == Some(false)
    && SameBandwidth(row.bandwidth, r.StoredBandwidth())
    && row.lastSeen > now - TEN_MINUTES
  }

  /** COALESCE(NULLIF(old, 0), given). */
  function KeepOrFill(stored: Option<real>, given: Option<real>): Option<real> {
    if stored.Some? && stored.value != 0.0 then stored else given
  }

  function Refreshed(row: Row, r: AnalysisResult, now: int): Row {
    row.(lastSeen := now, bandwidth := KeepOrFill(row.bandwidth, r.StoredBandwidth()),
         report := Some(r.report), classified := Some(r.report.classified), hits := row.hits + 1)
  }

  function Promoted(row: Row, r: AnalysisResult, now: int): Row {
    Refreshed(row, r, now).(freq := r.freq, modulation := Some(r.StoredModulation()),
                            traits := Some(Traits(r.ModulationClass(), r.traits)))
  }

  function Inserted(id: nat, r: AnalysisResult, now: int, defaultHits: int): Row {
    Row(id, now, now, r.freq, r.StoredBandwidth(), Some(r.scanner), Some(r.StoredModulation()),
        Some(Traits(r.ModulationClass(), r.traits)), Some(r.report), Some(r.report.classified), defaultHits)
  }

  // ----- one call, as a relation between the table before and after

  datatype Branch = Known(row: nat) | Promotion(row: nat) | Insertion

  /** The conditions of the two SELECT statements; the first is only asked for a non-empty modulation. */
  datatype Query = KnownRows | PromotableRows(now: int)

  predicate Selects(q: Query, row: Row, r: AnalysisResult) {
    match q
    case KnownRows => r.StoredModulation() != "" && SameSignal(row, r)
    case PromotableRows(now) => Promotable(row, r, now)
  }

  /** Row k is selected, and no selected row is nearer; which of equally near ones it is stays open. */
  ghost predicate Nearest(t: seq<Row>, r: AnalysisResult, q: Query, k: nat) {
    && k < |t| && Selects(q, t[k], r)
    && (forall i :: 0 <= i < |t| && Selects(q, t[i], r) ==> Distance(t[k], r) <= Distance(t[i], r))
  }

  ghost predicate NoRow(t: seq<Row>, r: AnalysisResult, q: Query) {
    forall i :: 0 <= i < |t| ==> !Selects(q, t[i], r)
  }

  ghost predicate Persists(t: seq<Row>, r: AnalysisResult, now: int, b: Branch, after: seq<Row>) {
    match b
    case Known(k) => Nearest(t, r, KnownRows, k) && after == t[k := Refreshed(t[k], r, now)]
    case Promotion(k) =>
      NoRow(t, r, KnownRows) && Nearest(t, r, PromotableRows(now), k) && after == t[k := Promoted(t[k], r, now)]
    case Insertion =>
      && NoRow(t, r, KnownRows) && NoRow(t, r, PromotableRows(now))
      && |after| == |t| + 1 && after[..|t|] == t
      && after[|t|] == Inserted(after[|t|].id, r, now, after[|t|].hits)
  }

  class Table {
    var rows: seq<Row>
    var nextId: nat
    const defaultHits: int

    /** Ids are unique: the program selects the row to update by its id. */
    ghost predicate Valid()
      reads this
    {
      && (forall i :: 0 <= i < |rows| ==> rows[i].id < nextId)
      && (forall i, j :: 0 <= i < j < |rows| ==> rows[i].id != rows[j].id)
    }

    constructor (hits: int)
      ensures Valid() && rows == []
    {
      rows := [];
      nextId := 0;
      defaultHits := hits;
    }

    /** SELECT ... ORDER BY abs(freq_hz - $1) LIMIT 1. */
    method Select(r: AnalysisResult, q: Query) returns (found: Option<nat>)
      ensures found.None? ==> NoRow(rows, r, q)
      ensures found.Some? ==> Nearest(rows, r, q, found.value)
    {
      found := None;
      for i := 0 to |rows|
        invariant found.None? ==> NoRow(rows[..i], r, q)
        invariant found.Some? ==> found.value < i && Nearest(rows[..i], r, q, found.value)
      {
        if Selects(q, rows[i], r) && (found.None? || Distance(rows[i], r) < Distance(rows[found.value], r)) {
          found := Some(i);
        }
      }
      assert rows[..|rows|] == rows;
    }

    method PersistResult(r: AnalysisResult, now: int) returns (b: Branch)
      requires Valid()
      modifies this
      ensures Valid() && Persists(old(rows), r, now, b, rows)
    {
      var existing := Select(r, KnownRows);
      if existing.Some? {
        var k := existing.value;
        rows := rows[k := Refreshed(rows[k], r, now)];
        return Known(k);
      }
      var unclassified := Select(r, PromotableRows(now));
      if unclassified.Some? {
        var k := unclassified.value;
        rows := rows[k := Promoted(rows[k], r, now)];
        return Promotion(k);
      }
      rows := rows + [Inserted(nextId, r, now, defaultHits)];
      nextId := nextId + 1;
      b := Insertion;
    }
  }

  // ----- what one call keeps

  /** At most one row changes or is added, none goes, ids and first sightings stay, hits never drop. */
  lemma OneRowAtMost(t: seq<Row>, r: AnalysisResult, now: int, b: Branch, after: seq<Row>)
    requires Persists(t, r, now, b, after)
    ensures |t| <= |after| <= |t| + 1
    ensures |after| == |t| + 1 <==> b.Insertion?
    ensures forall i :: 0 <= i < |t| ==>
              && after[i].id == t[i].id && after[i].firstSeen == t[i].firstSeen && after[i].hits >= t[i].hits
              && (after[i] != t[i] ==> !b.Insertion? && i == b.row)
    ensures !b.Insertion? ==> b.row < |t| && after[b.row].hits == t[b.row].hits + 1
  {
    if b.Insertion? {
      forall i | 0 <= i < |t|
        ensures after[i] == t[i]
      {
        assert after[..|t|][i] == t[i];
      }
    }
  }

  lemma NoDifference(w: real)
    ensures Abs(w - w) / Greatest(w, 1000.0) < 0.5
  {
    assert Abs(w - w) == 0.0;
  }

  lemma FilledBandwidthAgrees(row: Option<real>, wanted: Option<real>)
    requires SameBandwidth(row, wanted)
    ensures SameBandwidth(KeepOrFill(row, wanted), wanted)
  {
    if wanted.Some? {
      NoDifference(wanted.value);
    }
  }

  /** The row a call wrote. */
  function Written(b: Branch, after: seq<Row>): nat
    requires after != []
  {
    if b.Insertion? then |after| - 1 else b.row
  }

  lemma WrittenMatches(t: seq<Row>, r: AnalysisResult, now: int, b: Branch, after: seq<Row>)
    requires Persists(t, r, now, b, after)
    ensures after != [] && Written(b, after) < |after|
    ensures var row := after[Written(b, after)];
            && (r.StoredModulation() != "" || !b.Known? ==> SameSignal(row, r))
            && row.classified == Some(r.report.classified) && row.lastSeen == now
            && (r.StoredBandwidth().Some? ==> row.bandwidth.Some? && row.bandwidth.value != 0.0)
            && (!b.Known? ==> row.freq == r.freq)
  {
    hide Decimal;
    match b
    case Known(k) => FilledBandwidthAgrees(t[k].bandwidth, r.StoredBandwidth());
    case Promotion(k) => FilledBandwidthAgrees(t[k].bandwidth, r.StoredBandwidth());
    case Insertion =>
      if r.StoredBandwidth().Some? {
        NoDifference(r.StoredBandwidth().value);
      }
  }

  /** The row's bandwidth w and the wanted one differ by less than half of w, or of 1000 Hz if w is less. */
  predicate LessThanHalfApart(w: real, wanted: real) {
    var half := if w < 1000.0 then 500.0 else w / 2.0;
    -half < w - wanted < half
  }

  lemma HalfApart(w: real, wanted: real)
    ensures SameBandwidth(Some(w), Some(wanted)) <==> LessThanHalfApart(w, wanted)
  {
    QuotientBelowHalf(Abs(w - wanted) / Greatest(w, 1000.0), Abs(w - wanted), Greatest(w, 1000.0));
  }

  lemma QuotientBelowHalf(q: real, a: real, m: real)
    requires m >= 1000.0 && q == a / m
    ensures q < 0.5 <==> a < m / 2.0
  {
    ClearQuotient(q, a, m);
    if q < 0.5 {
      PositiveProduct(0.5 - q, m, m / 2.0 - a);
    } else {
      ProductOfOrdered(0.0, q - 0.5, 0.0, m);
      assert (q - 0.5) * m == a - m / 2.0;
    }
  }

  /** Frequencies less than 10 kHz apart, and bandwidths less than half apart where both are known. */
  predicate Alike(row: Row, r: AnalysisResult) {
    && -10000.0 < row.freq - r.freq < 10000.0
    && (r.bandwidth > 0.0 && row.bandwidth.Some? ==> LessThanHalfApart(row.bandwidth.value, r.bandwidth))
  }

  lemma SelectedRows(row: Row, r: AnalysisResult, q: Query)
    ensures Selects(q, row, r) <==>
            && Alike(row, r)
            && match q
               case KnownRows => r.StoredModulation() != "" && row.modulation == Some(r.StoredModulation())
               case PromotableRows(now) => row.classified == Some(false) && now - row.lastSeen < 600000
  {
    hide AnalysisResult.StoredModulation, LessThanHalfApart;
    if row.bandwidth.Some? {
      HalfApart(row.bandwidth.value, r.bandwidth);
    }
  }

  /**
   The branch is decided by the columns of the rows: a row alike in frequency and bandwidth is known if it
   has the result's own modulation, and only without such a row one unclassified in the last ten minutes is
   promoted. Whatever the branch, the row left behind has the result's modulation.
   */
  lemma BranchByColumns(t: seq<Row>, r: AnalysisResult, now: int, b: Branch, after: seq<Row>)
    requires Persists(t, r, now, b, after)
    ensures after != [] && Written(b, after) < |after|
    ensures after[Written(b, after)].modulation == Some(r.StoredModulation())
    ensures b.Known? ==> b.row < |t| && Alike(t[b.row], r) && t[b.row].modulation == Some(r.StoredModulation())
    ensures b.Promotion? ==> b.row < |t| && Alike(t[b.row], r) && t[b.row].classified == Some(false)
                             && now - t[b.row].lastSeen < 600000
    ensures b.Known? <==> r.StoredModulation() != "" && exists k ::
              0 <= k < |t| && Alike(t[k], r) && t[k].modulation == Some(r.StoredModulation())
    ensures b.Insertion? ==> forall k :: 0 <= k < |t| && Alike(t[k], r) ==>
              t[k].classified != Some(false) || now - t[k].lastSeen >= 600000
  {
    hide AnalysisResult.StoredModulation, Selects, Alike;
    forall k | 0 <= k < |t|
      ensures Selects(KnownRows, t[k], r) <==>
              Alike(t[k], r) && r.StoredModulation() != "" && t[k].modulation == Some(r.StoredModulation())
      ensures Selects(PromotableRows(now), t[k], r) <==>
              Alike(t[k], r) && t[k].classified == Some(false) && now - t[k].lastSeen < 600000
    {
      SelectedRows(t[k], r, KnownRows);
      SelectedRows(t[k], r, PromotableRows(now));
    }
  }

  /**
   What a write keeps of the row it finds: its scanner and a bandwidth other than zero always, and for a known
   signal its frequency, modulation and traits too. The report is always the new one.
   */
  lemma ColumnsKept(t: seq<Row>, r: AnalysisResult, now: int, b: Branch, after: seq<Row>)
    requires Persists(t, r, now, b, after)
    ensures after != [] && Written(b, after) < |after| && after[Written(b, after)].report == Some(r.report)
    ensures !b.Insertion? ==> b.row < |t| && b.row < |after|
    ensures !b.Insertion? ==>
              var row, w := t[b.row], after[b.row];
              && w.scanner == row.scanner
              && (row.bandwidth.Some? && row.bandwidth.value != 0.0 ==> w.bandwidth == row.bandwidth)
              && (row.bandwidth == None || row.bandwidth.value == 0.0 ==> w.bandwidth == r.StoredBandwidth())
    ensures b.Known? ==>
              var row, w := t[b.row], after[b.row];
              w.freq == row.freq && w.modulation == row.modulation && w.traits == row.traits
    ensures !b.Known? ==>
              var w := after[Written(b, after)];
              w.freq == r.freq && w.traits == Some(Traits(r.ModulationClass(), r.traits))
    ensures b.Insertion? ==>
              var w := after[|t|];
              w.scanner == Some(r.scanner) && w.bandwidth == r.StoredBandwidth() && w.firstSeen == now
  {
    hide AnalysisResult.StoredModulation, AnalysisResult.ModulationClass;
  }

  /**
   Results with different modulations, persisted one after the other, leave different rows, unless the
   first counted as unclassified and its row is promoted to the second.
   */
  lemma DifferentRows(t: seq<Row>, r1: AnalysisResult, now1: int, b1: Branch, t1: seq<Row>,
                      r2: AnalysisResult, now2: int, b2: Branch, t2: seq<Row>)
    requires Persists(t, r1, now1, b1, t1) && Persists(t1, r2, now2, b2, t2)
    requires r1.StoredModulation() != r2.StoredModulation()
    ensures t1 != [] && t2 != [] && Written(b1, t1) < |t2| && Written(b2, t2) < |t2|
    ensures r1.report.classified || !b2.Promotion? ==>
              && Written(b1, t1) != Written(b2, t2)
              && t2[Written(b1, t1)].modulation == Some(r1.StoredModulation())
    ensures t2[Written(b2, t2)].modulation == Some(r2.StoredModulation())
  {
    hide AnalysisResult.StoredModulation, Alike, Persists;
    BranchByColumns(t, r1, now1, b1, t1);
    BranchByColumns(t1, r2, now2, b2, t2);
    WrittenMatches(t, r1, now1, b1, t1);
    OneRowAtMost(t1, r2, now2, b2, t2);
  }

  /**
   Persisting a result with a modulation twice takes the known-signal branch the second time, whatever
   the first did and whenever it was, so it adds no row. The second time's row is no farther away.
   */
  lemma PersistIsIdempotent(t: seq<Row>, r: AnalysisResult, now1: int, b1: Branch, t1: seq<Row>,
                            now2: int, b2: Branch, t2: seq<Row>)
    requires r.StoredModulation() != "" && Persists(t, r, now1, b1, t1) && Persists(t1, r, now2, b2, t2)
    ensures b2.Known? && |t2| == |t1|
    ensures Distance(t1[b2.row], r) <= Distance(t1[Written(b1, t1)], r)
  {
    hide AnalysisResult.StoredModulation, SameSignal;
    WrittenMatches(t, r, now1, b1, t1);
    assert Selects(KnownRows, t1[Written(b1, t1)], r);
  }

  /**
   Without a modulation the known-signal branch is never taken. The second call inserts again exactly
   when the row of the first cannot be promoted any more (the result counted as classified, or ten
   minutes have passed) and no other row can.
   */
  lemma EmptyModulationRepeats(t: seq<Row>, r: AnalysisResult, now1: int, b1: Branch, t1: seq<Row>,
                               now2: int, b2: Branch, t2: seq<Row>)
    requires r.StoredModulation() == "" && Persists(t, r, now1, b1, t1) && Persists(t1, r, now2, b2, t2)
    ensures !b1.Known? && !b2.Known?
    ensures b2.Insertion? <==>
            && (r.report.classified || now1 <= now2 - TEN_MINUTES)
            && (forall i :: 0 <= i < |t| && !(b1.Promotion? && i == b1.row) ==> !Promotable(t[i], r, now2))
  {
    hide AnalysisResult.StoredModulation, Promotable;
    WrittenMatches(t, r, now1, b1, t1);
    OneRowAtMost(t, r, now1, b1, t1);
    var w := Written(b1, t1);
    WrittenPromotable(t1[w], r, now1, now2);
    forall i | 0 <= i < |t| && !(b1.Promotion? && i == b1.row)
      ensures Selects(PromotableRows(now2), t1[i], r) <==> Promotable(t[i], r, now2)
    {
      assert t1[i] == t[i];
    }
    assert Selects(PromotableRows(now2), t1[w], r) <==> Promotable(t1[w], r, now2);
    if b2.Insertion? {
      forall i | 0 <= i < |t| && !(b1.Promotion? && i == b1.row)
        ensures !Promotable(t[i], r, now2)
      {
        assert !Selects(PromotableRows(now2), t1[i], r);
      }
    } else if b2.Promotion? {
      assert Selects(PromotableRows(now2), t1[b2.row], r);
    }
  }

  lemma WrittenPromotable(row: Row, r: AnalysisResult, now1: int, now2: int)
    requires SameSignal(row, r) && row.classified == Some(r.report.classified) && row.lastSeen == now1
    ensures Promotable(row, r, now2) <==> !r.report.classified && now1 > now2 - TEN_MINUTES
  {
  }

  // ----- whole runs

  /** One call of a run: what was persisted, when, which branch it took, and the table afterwards. */
  datatype Call = Call(r: AnalysisResult, now: int, branch: Branch, after: seq<Row>)

  function TableAfter(start: seq<Row>, run: seq<Call>): seq<Row> {
    if run == [] then start else run[|run| - 1].after
  }

  ghost predicate IsRun(start: seq<Row>, run: seq<Call>) {
    forall k :: 0 <= k < |run| ==>
      Persists(TableAfter(start, run[..k]), run[k].r, run[k].now, run[k].branch, run[k].after)
  }

  /** The engine marks every result classified that it gives a modulation. */
  predicate Labelled(r: AnalysisResult) {
    r.StoredModulation() != "" ==> r.report.classified
  }

  /** Row settles r: it matches r, can no longer be promoted to another signal, and keeps its bandwidth. */
  predicate Settles(row: Row, r: AnalysisResult) {
    && SameSignal(row, r)
    && row.classified == Some(true)
    && (r.StoredBandwidth().Some? ==> row.bandwidth.Some? && row.bandwidth.value != 0.0)
  }

  /** A row that settles r still does after any other call. */
  lemma SettledStays(t: seq<Row>, k: nat, r: AnalysisResult, s: AnalysisResult, now: int, b: Branch, after: seq<Row>)
    requires r.StoredModulation() != "" && Labelled(s)
    requires k < |t| && Settles(t[k], r) && Persists(t, s, now, b, after)
    ensures k < |after| && Settles(after[k], r)
  {
    hide AnalysisResult.StoredModulation, Decimal;
    OneRowAtMost(t, s, now, b, after);
    if b.Known? && b.row == k {
      assert SameSignal(t[k], s);
      assert s.StoredModulation() == r.StoredModulation();
    }
  }

  lemma {:induction false} SettledThroughout(start: seq<Row>, run: seq<Call>, i: nat, j: nat) returns (k: nat)
    requires IsRun(start, run) && i < j <= |run| && run[i].r.StoredModulation() != ""
    requires forall m :: 0 <= m < |run| ==> Labelled(run[m].r)
    ensures k < |TableAfter(start, run[..j])| && Settles(TableAfter(start, run[..j])[k], run[i].r)
    decreases j
  {
    hide AnalysisResult.StoredModulation, Settles, Persists;
    var call := run[j - 1];
    assert run[..j][|run[..j]| - 1] == call;
    assert Persists(TableAfter(start, run[..j - 1]), call.r, call.now, call.branch, call.after);
    if j == i + 1 {
      WrittenSettles(TableAfter(start, run[..i]), call.r, call.now, call.branch, call.after);
      k := Written(call.branch, call.after);
    } else {
      k := SettledThroughout(start, run, i, j - 1);
      SettledStays(TableAfter(start, run[..j - 1]), k, run[i].r, call.r, call.now, call.branch, call.after);
    }
  }

  lemma WrittenSettles(t: seq<Row>, r: AnalysisResult, now: int, b: Branch, after: seq<Row>)
    requires Persists(t, r, now, b, after) && r.StoredModulation() != "" && Labelled(r)
    ensures after != [] && Written(b, after) < |after| && Settles(after[Written(b, after)], r)
  {
    hide AnalysisResult.StoredModulation, SameSignal, Persists;
    WrittenMatches(t, r, now, b, after);
  }

  predicate SameIdentity(r: AnalysisResult, s: AnalysisResult) {
    r.freq == s.freq && r.StoredModulation() == s.StoredModulation() && r.StoredBandwidth() == s.StoredBandwidth()
  }

  /**
   Over any run of results as the engine makes them, in any order and at any times: once a signal has
   been persisted, persisting it again is always recognised, however many others came in between.
   */
  lemma KnownForever(start: seq<Row>, run: seq<Call>, i: nat, j: nat)
    requires IsRun(start, run) && i < j < |run|
    requires forall m :: 0 <= m < |run| ==> Labelled(run[m].r)
    requires run[i].r.StoredModulation() != "" && SameIdentity(run[i].r, run[j].r)
    ensures run[j].branch.Known?
  {
    hide AnalysisResult.StoredModulation, Labelled;
    var t := TableAfter(start, run[..j]);
    var k := SettledThroughout(start, run, i, j);
    assert SameSignal(t[k], run[j].r);
    assert Selects(KnownRows, t[k], run[j].r);
    assert Persists(t, run[j].r, run[j].now, run[j].branch, run[j].after);
  }

  /** And different signals never share a row: any two modulations persisted in a run keep a row each. */
  lemma EachKeepsItsRow(start: seq<Row>, run: seq<Call>, i: nat, j: nat) returns (k: nat, l: nat)
    requires IsRun(start, run) && i < |run| && j < |run|
    requires forall m :: 0 <= m < |run| ==> Labelled(run[m].r)
    requires run[i].r.StoredModulation() != "" && run[j].r.StoredModulation() != ""
    requires run[i].r.StoredModulation() != run[j].r.StoredModulation()
    ensures var t := TableAfter(start, run);
            && k < |t| && l < |t| && k != l && Alike(t[k], run[i].r) && Alike(t[l], run[j].r)
            && t[k].modulation == Some(run[i].r.StoredModulation())
            && t[l].modulation == Some(run[j].r.StoredModulation())
  {
    hide AnalysisResult.StoredModulation, Labelled, Alike, Selects;
    k := SettledThroughout(start, run, i, |run|);
    l := SettledThroughout(start, run, j, |run|);
    assert run[..|run|] == run;
    var t := TableAfter(start, run);
    SettledMembers(t[k], run[i].r);
    SettledMembers(t[l], run[j].r);
  }

  lemma SettledMembers(row: Row, r: AnalysisResult)
    requires Settles(row, r) && r.StoredModulation() != ""
    ensures Alike(row, r) && row.modulation == Some(r.StoredModulation())
  {
    hide AnalysisResult.StoredModulation, SameSignal, Alike;
    SelectedRows(row, r, KnownRows);
  }
}
