/** Sorting by a lexicographic key: the order that the callers' comparators describe. */
module Sorting {

  datatype Rank = Rank(major: int, minor: int)

  predicate AtMost(a: Rank, b: Rank) {
    a.major < b.major || (a.major == b.major && a.minor <= b.minor)
  }

  ghost predicate Ascending<T>(s: seq<T>, rank: T -> Rank) {
    forall i, j :: 0 <= i < j < |s| ==> AtMost(rank(s[i]), rank(s[j]))
  }

  function Insert<T>(x: T, s: seq<T>, rank: T -> Rank): seq<T> {
    if s == [] || AtMost(rank(x), rank(s[0])) then [x] + s else [s[0]] + Insert(x, s[1..], rank)
  }

  function SortBy<T>(s: seq<T>, rank: T -> Rank): seq<T> {
    if s == [] then [] else Insert(s[0], SortBy(s[1..], rank), rank)
  }

  lemma {:induction false} InsertSorts<T>(x: T, s: seq<T>, rank: T -> Rank)
    requires Ascending(s, rank)
    ensures Ascending(Insert(x, s, rank), rank)
    ensures multiset(Insert(x, s, rank)) == multiset{x} + multiset(s)
  {
    if !(s == [] || AtMost(rank(x), rank(s[0]))) {
      InsertSorts(x, s[1..], rank);
      assert s == [s[0]] + s[1..];
      InsertKeepsMembers(x, s[1..], rank);
      FirstIsLeast(s, rank);
      Prepending(s[0], Insert(x, s[1..], rank), rank);
    } else {
      FirstIsLeast(s, rank);
      Prepending(x, s, rank);
    }
  }

  lemma FirstIsLeast<T>(s: seq<T>, rank: T -> Rank)
    requires Ascending(s, rank)
    ensures s != [] ==> forall y :: y in s ==> AtMost(rank(s[0]), rank(y))
  {
  }

  lemma Prepending<T>(x: T, s: seq<T>, rank: T -> Rank)
    requires Ascending(s, rank) && forall y :: y in s ==> AtMost(rank(x), rank(y))
    ensures Ascending([x] + s, rank)
  {
    var r := [x] + s;
    forall i, j | 0 <= i < j < |r| ensures AtMost(rank(r[i]), rank(r[j])) {
      assert r[j] == s[j - 1] && r[j] in s;
      if i > 0 { assert r[i] == s[i - 1]; }
    }
  }

  lemma {:induction false} InsertKeepsMembers<T>(x: T, s: seq<T>, rank: T -> Rank)
    ensures forall y :: y in Insert(x, s, rank) ==> y == x || y in s
  {
    if !(s == [] || AtMost(rank(x), rank(s[0]))) { InsertKeepsMembers(x, s[1..], rank); }
  }

  /** The result holds the same elements, in order. */
  lemma {:induction false} SortSorts<T>(s: seq<T>, rank: T -> Rank)
    ensures Ascending(SortBy(s, rank), rank)
    ensures multiset(SortBy(s, rank)) == multiset(s)
    ensures |SortBy(s, rank)| == |s|
  {
    if s != [] {
      SortSorts(s[1..], rank);
      InsertSorts(s[0], SortBy(s[1..], rank), rank);
      assert s == [s[0]] + s[1..];
    }
    assert |multiset(SortBy(s, rank))| == |multiset(s)|;
  }

  lemma SortKeepsMembers<T>(s: seq<T>, rank: T -> Rank)
    ensures forall x :: x in SortBy(s, rank) <==> x in s
  {
    SortSorts(s, rank);
    forall x ensures x in SortBy(s, rank) <==> x in s {
      assert x in multiset(SortBy(s, rank)) <==> x in multiset(s);
    }
  }
}
