/** The three best hypotheses of a signal (ProtocolMapper::map). */
module TopHypotheses {
  import opened RealFunctions
  import opened SignatureRanking

  const THRESHOLD: real := 0.05
  const LIMIT: nat := 3

  /** A score with the index of its signature, which stands for the address the program keeps. */
  datatype Scored = Scored(score: real, sig: nat)

  datatype Hypothesis = Hypothesis(system: string, category: string, confidence: real)

  predicate Database(db: seq<Signature>) {
    forall k :: 0 <= k < |db| ==> WellFormed(db[k])
  }

  ghost predicate Descending(s: seq<Scored>) {
    forall i, j :: 0 <= i < j < |s| ==> s[i].score >= s[j].score
  }

  // ----- the library sort

  function Insert(v: Scored, s: seq<Scored>): (r: seq<Scored>)
    ensures multiset(r) == multiset(s) + multiset{v}
  {
    if s == [] || v.score > s[0].score then [v] + s
    else
      assert s == [s[0]] + s[1..];
      [s[0]] + Insert(v, s[1..])
  }

  lemma {:induction false} InsertDescending(v: Scored, s: seq<Scored>)
    requires Descending(s)
    ensures Descending(Insert(v, s))
  {
    if s == [] || v.score > s[0].score {
    } else {
      var t := Insert(v, s[1..]);
      InsertDescending(v, s[1..]);
      forall j | 0 <= j < |t|
        ensures s[0].score >= t[j].score
      {
        assert t[j] in multiset(t);
        assert t[j] in multiset(s[1..]) + multiset{v};
      }
    }
  }

  /** Callers know only that the result is sorted and a rearrangement: ties may come out in any order. */
  method SortDescending(s: seq<Scored>) returns (r: seq<Scored>)
    ensures Descending(r) && multiset(r) == multiset(s)
  {
    r := [];
    for i := 0 to |s|
      invariant Descending(r) && multiset(r) == multiset(s[..i])
    {
      InsertDescending(s[i], r);
      r := Insert(s[i], r);
      assert s[..i + 1] == s[..i] + [s[i]];
    }
    assert s[..|s|] == s;
  }

  // ----- what is listed

  ghost predicate Distinct(picks: seq<nat>) {
    forall i, j :: 0 <= i < j < |picks| ==> picks[i] != picks[j]
  }

  function ScoreAt(db: seq<Signature>, o: Observation, exp: real -> real, k: nat): real
    requires Database(db) && k < |db|
  {
    ScoreOf(db[k], o, exp)
  }

  /** Each signature is either listed, or beaten by every listed one while the list is full, or too weak. */
  ghost predicate Accounted(db: seq<Signature>, o: Observation, exp: real -> real, picks: seq<nat>, k: nat)
    requires Database(db) && k < |db| && forall i :: 0 <= i < |picks| ==> picks[i] < |db|
  {
    || k in picks
    || ScoreAt(db, o, exp, k) <= THRESHOLD
    || (|picks| == LIMIT && forall i :: 0 <= i < |picks| ==> ScoreAt(db, o, exp, k) <= ScoreAt(db, o, exp, picks[i]))
  }

  /** picks are (the indices of) three best signatures above the threshold, or all if fewer, best first. */
  ghost predicate BestOf(db: seq<Signature>, o: Observation, exp: real -> real, picks: seq<nat>)
    requires Database(db)
  {
    && |picks| <= LIMIT && Distinct(picks)
    && (forall i :: 0 <= i < |picks| ==> picks[i] < |db| && ScoreAt(db, o, exp, picks[i]) > THRESHOLD)
    && (forall i, j :: 0 <= i < j < |picks| ==> ScoreAt(db, o, exp, picks[i]) >= ScoreAt(db, o, exp, picks[j]))
    && (forall k: nat :: k < |db| ==> Accounted(db, o, exp, picks, k))
  }

  ghost predicate Lists(db: seq<Signature>, o: Observation, exp: real -> real, picks: seq<nat>, hs: seq<Hypothesis>)
    requires Database(db)
  {
    && |hs| == |picks|
    && (forall i :: 0 <= i < |hs| ==>
          && picks[i] < |db|
          && hs[i] == Hypothesis(db[picks[i]].name, db[picks[i]].category, ScoreAt(db, o, exp, picks[i])))
  }

  /** The hypotheses list three best signatures, or all above the threshold if fewer. */
  ghost predicate Ranks(db: seq<Signature>, o: Observation, exp: real -> real, hs: seq<Hypothesis>)
    requires Database(db)
  {
    exists picks :: BestOf(db, o, exp, picks) && Lists(db, o, exp, picks, hs)
  }

  /** scored holds every one of the first n signatures that passes the threshold, once. */
  ghost predicate Passed(db: seq<Signature>, o: Observation, exp: real -> real, scored: seq<Scored>, n: nat)
    requires Database(db) && n <= |db|
  {
    && (forall i :: 0 <= i < |scored| ==>
          scored[i].sig < n && scored[i].score == ScoreAt(db, o, exp, scored[i].sig) > THRESHOLD)
    && (forall i, j :: 0 <= i < j < |scored| ==> scored[i].sig != scored[j].sig)
    && (forall k: nat :: k < n && ScoreAt(db, o, exp, k) > THRESHOLD ==>
          Scored(ScoreAt(db, o, exp, k), k) in scored)
  }

  /** Rearranging keeps Passed: no entry is lost, and none becomes a duplicate. */
  lemma PassedRearranged(db: seq<Signature>, o: Observation, exp: real -> real, a: seq<Scored>, b: seq<Scored>)
    requires Database(db) && Passed(db, o, exp, a, |db|) && multiset(a) == multiset(b)
    ensures Passed(db, o, exp, b, |db|)
  {
    forall i | 0 <= i < |b|
      ensures b[i] in a
    {
      assert b[i] in multiset(b);
    }
    forall k: nat | k < |db| && ScoreAt(db, o, exp, k) > THRESHOLD
      ensures Scored(ScoreAt(db, o, exp, k), k) in b
    {
      assert Scored(ScoreAt(db, o, exp, k), k) in multiset(a);
    }
    NoRepeats(a);
    forall i, j | 0 <= i < j < |b|
      ensures b[i].sig != b[j].sig
    {
      if b[i].sig == b[j].sig {
        Repeated(b, i, j);
      }
    }
  }

  lemma {:induction false} NoRepeats(a: seq<Scored>)
    requires forall i, j :: 0 <= i < j < |a| ==> a[i].sig != a[j].sig
    ensures forall v :: multiset(a)[v] <= 1
  {
    if a == [] {
    } else {
      var n := |a| - 1;
      NoRepeats(a[..n]);
      assert a == a[..n] + [a[n]];
      assert a[n] !in multiset(a[..n]) by {
        assert a[n] !in a[..n];
      }
    }
  }

  lemma Repeated(b: seq<Scored>, i: nat, j: nat)
    requires i < j < |b| && b[i] == b[j]
    ensures multiset(b)[b[i]] >= 2
  {
    assert b == b[..j] + [b[j]] + b[j + 1..];
    assert b[..j][i] == b[i];
    assert b[i] in multiset(b[..j]);
  }

  function Indices(s: seq<Scored>): (p: seq<nat>)
    ensures |p| == |s| && forall i :: 0 <= i < |p| ==> p[i] == s[i].sig
  {
    seq(|s|, i requires 0 <= i < |s| => s[i].sig)
  }

  lemma PrefixIsBest(db: seq<Signature>, o: Observation, exp: real -> real, sorted: seq<Scored>, limit: nat)
    requires Database(db) && Passed(db, o, exp, sorted, |db|) && Descending(sorted)
    requires limit == if |sorted| < LIMIT then |sorted| else LIMIT
    ensures BestOf(db, o, exp, Indices(sorted[..limit]))
  {
    hide ScoreAt;
    var picks := Indices(sorted[..limit]);
    forall k: nat | k < |db|
      ensures Accounted(db, o, exp, picks, k)
    {
      if ScoreAt(db, o, exp, k) > THRESHOLD {
        var j :| 0 <= j < |sorted| && sorted[j] == Scored(ScoreAt(db, o, exp, k), k);
        if j < limit {
          assert picks[j] == k;
        }
      }
    }
  }

  method Map(db: seq<Signature>, o: Observation, exp: real -> real)
    returns (hypotheses: seq<Hypothesis>)
    requires Database(db)
    ensures Ranks(db, o, exp, hypotheses)
  {
    hide ScoreOf, BestOf;
    var scored := [];
    for k := 0 to |db|
      invariant Passed(db, o, exp, scored, k)
    {
      var s := Score(db[k], o, exp);
      if s > THRESHOLD {
        scored := scored + [Scored(s, k)];
      }
    }
    var sorted := SortDescending(scored);
    PassedRearranged(db, o, exp, scored, sorted);
    var limit := if |sorted| < LIMIT then |sorted| else LIMIT;
    PrefixIsBest(db, o, exp, sorted, limit);
    ghost var picks := Indices(sorted[..limit]);
    hypotheses := [];
    for i := 0 to limit
      invariant Lists(db, o, exp, picks[..i], hypotheses)
    {
      var sig := db[sorted[i].sig];
      hypotheses := hypotheses + [Hypothesis(sig.name, sig.category, sorted[i].score)];
    }
    assert picks[..limit] == picks;
  }

  // ----- consequences

  /** Every listed confidence lies in (0.05, 1]. */
  lemma ConfidenceRange(db: seq<Signature>, o: Observation, exp: real -> real, picks: seq<nat>)
    requires Database(db) && IsExponential(exp) && BestOf(db, o, exp, picks)
    ensures forall i :: 0 <= i < |picks| ==> 0.05 < ScoreAt(db, o, exp, picks[i]) <= 1.0
    ensures |picks| <= 3
    ensures |picks| < 3 ==> forall k: nat :: k < |db| && ScoreAt(db, o, exp, k) > 0.05 ==> k in picks
  {
    forall k: nat | k < |db| && |picks| < 3 && ScoreAt(db, o, exp, k) > 0.05
      ensures k in picks
    {
      assert Accounted(db, o, exp, picks, k);
    }
    forall i | 0 <= i < |picks|
      ensures ScoreAt(db, o, exp, picks[i]) <= 1.0
    {
      ScoreRange(db[picks[i]], o, exp);
    }
  }

  /** In band, with a fully matching modulation and no structural requirement violated. */
  ghost predicate Convincing(s: Signature, o: Observation) {
    InBand(s, o) && s.modulations != [] && AnyFull(s.modulations, o) && Unpenalised(s, o)
  }

  /** One convincing signature in the database is enough for the top hypothesis to be in band. */
  lemma TopIsInBand(db: seq<Signature>, o: Observation, exp: real -> real, picks: seq<nat>, k: nat)
    requires Database(db) && IsExponential(exp) && BestOf(db, o, exp, picks)
    requires k < |db| && Convincing(db[k], o)
    ensures picks != [] && InBand(db[picks[0]], o) && ScoreAt(db, o, exp, picks[0]) >= 0.70
  {
    hide InBand, AnyFull, Unpenalised, ScoreOf;
    BandGap(db[k], o, exp);
    assert Accounted(db, o, exp, picks, k);
    assert ScoreAt(db, o, exp, k) <= ScoreAt(db, o, exp, picks[0]);
    BandGap(db[picks[0]], o, exp);
  }

  function IndexSet(picks: seq<nat>): set<nat> {
    set p | p in picks
  }

  lemma {:induction false} DistinctSize(picks: seq<nat>)
    requires Distinct(picks)
    ensures |IndexSet(picks)| == |picks|
  {
    if picks == [] {
    } else {
      var n := |picks| - 1;
      DistinctSize(picks[..n]);
      assert IndexSet(picks) == IndexSet(picks[..n]) + {picks[n]};
    }
  }

  /** A longer list of distinct indices has one that a shorter list lacks. */
  lemma OneMissing(a: seq<nat>, b: seq<nat>) returns (k: nat)
    requires Distinct(a) && |a| > |b|
    ensures k < |a| && a[k] !in b
  {
    DistinctSize(a);
    SetSize(b);
    if IndexSet(a) <= IndexSet(b) {
      SubsetSize(IndexSet(a), IndexSet(b));
    }
    var p :| p in IndexSet(a) && p !in IndexSet(b);
    k :| k < |a| && a[k] == p;
  }

  lemma {:induction false} SetSize(b: seq<nat>)
    ensures |IndexSet(b)| <= |b|
  {
    if b == [] {
    } else {
      var n := |b| - 1;
      SetSize(b[..n]);
      assert IndexSet(b) == IndexSet(b[..n]) + {b[n]};
    }
  }

  lemma SubsetSize(a: set<nat>, b: set<nat>)
    requires a <= b
    ensures |a| <= |b|
  {
    assert b == a + (b - a);
  }

  /** Two best lists: the first cannot have, at position i, a score the second does not reach there. */
  lemma NoBetter(db: seq<Signature>, o: Observation, exp: real -> real, p: seq<nat>, q: seq<nat>, i: nat)
    requires Database(db) && BestOf(db, o, exp, p) && BestOf(db, o, exp, q) && i < |p|
    ensures i < |q| && ScoreAt(db, o, exp, p[i]) <= ScoreAt(db, o, exp, q[i])
  {
    hide ScoreAt;
    var front := if i < |q| then q[..i] else q;
    var k := OneMissing(p[..i + 1], front);
    var v := p[k];
    assert ScoreAt(db, o, exp, v) >= ScoreAt(db, o, exp, p[i]);
    assert Accounted(db, o, exp, q, v);
    forall j | 0 <= j < |front|
      ensures q[j] != v
    {
      assert front[j] == q[j];
    }
  }

  lemma SameScores(db: seq<Signature>, o: Observation, exp: real -> real, p: seq<nat>, q: seq<nat>)
    requires Database(db) && BestOf(db, o, exp, p) && BestOf(db, o, exp, q)
    ensures |p| == |q|
    ensures forall i :: 0 <= i < |p| ==> ScoreAt(db, o, exp, p[i]) == ScoreAt(db, o, exp, q[i])
  {
    hide ScoreAt;
    if |p| > |q| {
      NoBetter(db, o, exp, p, q, |p| - 1);
    }
    if |q| > |p| {
      NoBetter(db, o, exp, q, p, |q| - 1);
    }
    forall i | 0 <= i < |p|
      ensures ScoreAt(db, o, exp, p[i]) == ScoreAt(db, o, exp, q[i])
    {
      NoBetter(db, o, exp, p, q, i);
      NoBetter(db, o, exp, q, p, i);
    }
  }

  /**
   The sort leaves ties in no particular order, so which signatures are listed may vary, but how many
   and with which confidences does not.
   */
  lemma ConfidencesAreDetermined(db: seq<Signature>, o: Observation, exp: real -> real,
                                 hs: seq<Hypothesis>, hs': seq<Hypothesis>)
    requires Database(db) && Ranks(db, o, exp, hs) && Ranks(db, o, exp, hs')
    ensures |hs| == |hs'|
    ensures forall i :: 0 <= i < |hs| ==> hs[i].confidence == hs'[i].confidence
  {
    hide ScoreAt, BestOf;
    var p :| BestOf(db, o, exp, p) && Lists(db, o, exp, p, hs);
    var q :| BestOf(db, o, exp, q) && Lists(db, o, exp, q, hs');
    SameScores(db, o, exp, p, q);
  }
}
