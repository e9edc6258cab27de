/** What std::sort promises about a vector of reals. */
module Sorting {

  ghost predicate Ascending(s: seq<real>) {
    forall i, j :: 0 <= i < j < |s| ==> s[i] <= s[j]
  }

  ghost predicate SortedCopy(s: seq<real>, r: seq<real>) {
    Ascending(r) && multiset(r) == multiset(s)
  }

  function Insert(v: real, s: seq<real>): (r: seq<real>)
    ensures multiset(r) == multiset(s) + multiset{v}
    ensures |r| == |s| + 1
  {
    if s == [] || v <= s[0] then [v] + s
    else
      assert s == [s[0]] + s[1..];
      [s[0]] + Insert(v, s[1..])
  }

  lemma {:induction false} InsertAscending(v: real, s: seq<real>)
    requires Ascending(s)
    ensures Ascending(Insert(v, s))
  {
    if s == [] || v <= s[0] {
    } else {
      var t := Insert(v, s[1..]);
      InsertAscending(v, s[1..]);
      forall j | 0 <= j < |t|
        ensures s[0] <= t[j]
      {
        assert t[j] in multiset(t);
        assert t[j] in multiset(s[1..]) + multiset{v};
      }
    }
  }

  function Sorted(s: seq<real>): (r: seq<real>)
    ensures SortedCopy(s, r) && |r| == |s|
  {
    if s == [] then []
    else
      var n := |s| - 1;
      assert s == s[..n] + [s[n]];
      InsertAscending(s[n], Sorted(s[..n]));
      Insert(s[n], Sorted(s[..n]))
  }

  /** The library sort. Callers know its contract only, not the algorithm. */
  method StdSort(s: seq<real>) returns (r: seq<real>)
    ensures SortedCopy(s, r)
  {
    r := Sorted(s);
  }

  lemma SameLength(a: seq<real>, b: seq<real>)
    requires multiset(a) == multiset(b)
    ensures |a| == |b|
  {
    assert |multiset(a)| == |a| && |multiset(b)| == |b|;
  }

  lemma WithoutLast(a: seq<real>, n: nat)
    requires |a| == n + 1
    ensures multiset(a[..n]) == multiset(a) - multiset{a[n]}
  {
    assert a == a[..n] + [a[n]];
  }

  lemma AscendingPrefix(a: seq<real>, n: nat)
    requires Ascending(a) && n <= |a|
    ensures Ascending(a[..n])
  {
  }

  lemma PrefixesMatch(a: seq<real>, b: seq<real>, n: nat)
    requires |a| == |b| == n + 1 && multiset(a) == multiset(b) && a[n] == b[n]
    ensures multiset(a[..n]) == multiset(b[..n])
  {
    WithoutLast(a, n);
    WithoutLast(b, n);
  }

  /** A vector of reals has one sorted copy, so nothing depends on how the library sorts. */
  lemma {:induction false} SortedCopyIsUnique(a: seq<real>, b: seq<real>)
    requires Ascending(a) && Ascending(b) && multiset(a) == multiset(b)
    ensures a == b
    decreases |a|
  {
    hide Ascending;
    SameLength(a, b);
    if a == [] {
    } else {
      var n := |a| - 1;
      LastIsLargest(a, b);
      LastIsLargest(b, a);
      AscendingPrefix(a, n);
      AscendingPrefix(b, n);
      PrefixesMatch(a, b, n);
      SortedCopyIsUnique(a[..n], b[..n]);
      SameWithLast(a, b, n);
    }
  }

  lemma SameWithLast(a: seq<real>, b: seq<real>, n: nat)
    requires |a| == |b| == n + 1 && a[..n] == b[..n] && a[n] == b[n]
    ensures a == b
  {
    assert a == a[..n] + [a[n]] && b == b[..n] + [b[n]];
  }

  lemma LastIsLargest(a: seq<real>, b: seq<real>)
    requires Ascending(b) && multiset(a) == multiset(b) && a != [] && b != []
    ensures a[|a| - 1] <= b[|b| - 1]
  {
    assert a[|a| - 1] in multiset(b);
  }
}
