/** Orders on strings and sequences, for the library calls strings.Compare,
    slices.SortFunc and slices.SortStableFunc. */
module Sorting {
  import opened Sequences

  // ----------------------------------------------------------------- strings

  /** Lexicographic order: negative, zero or positive. */
  function CompareStrings(a: string, b: string): int {
    if a == [] && b == [] then 0
    else if a == [] then -1
    else if b == [] then 1
    else if a[0] < b[0] then -1
    else if a[0] > b[0] then 1
    else CompareStrings(a[1..], b[1..])
  }

  lemma {:induction false} CompareIsZeroIff(a: string, b: string)
    ensures CompareStrings(a, b) == 0 <==> a == b
  {
    if a != [] && b != [] && a[0] == b[0] {
      CompareIsZeroIff(a[1..], b[1..]);
      assert a == [a[0]] + a[1..] && b == [b[0]] + b[1..];
    }
  }

  lemma {:induction false} CompareReverses(a: string, b: string)
    ensures CompareStrings(b, a) == -CompareStrings(a, b)
  {
    if a != [] && b != [] && a[0] == b[0] {
      CompareReverses(a[1..], b[1..]);
    }
  }

  lemma {:induction false} CompareIsTransitive(a: string, b: string, c: string)
    requires CompareStrings(a, b) <= 0 && CompareStrings(b, c) <= 0
    ensures CompareStrings(a, c) <= 0
  {
    if a != [] && b != [] && c != [] && a[0] == b[0] == c[0] {
      CompareIsTransitive(a[1..], b[1..], c[1..]);
    }
  }

  // ------------------------------------------------------------------- sorting

  ghost predicate TotalPreorder<T(!new)>(leq: (T, T) -> bool) {
    && (forall x, y :: leq(x, y) || leq(y, x))
    && (forall x, y, z :: leq(x, y) && leq(y, z) ==> leq(x, z))
  }

  ghost predicate SortedBy<T>(s: seq<T>, leq: (T, T) -> bool) {
    forall i, j :: 0 <= i < j < |s| ==> leq(s[i], s[j])
  }

  /** x after every element that is not greater. */
  function Insert<T>(x: T, s: seq<T>, leq: (T, T) -> bool): seq<T> {
    if s == [] || !leq(s[|s| - 1], x) then
      if s == [] then [x] else Insert(x, s[..|s| - 1], leq) + [s[|s| - 1]]
    else s + [x]
  }

  /** s sorted; elements neither of which is less keep their order. */
  function SortBy<T>(s: seq<T>, leq: (T, T) -> bool): seq<T> {
    if s == [] then [] else Insert(s[|s| - 1], SortBy(s[..|s| - 1], leq), leq)
  }

  lemma {:induction false} InsertAdds<T>(x: T, s: seq<T>, leq: (T, T) -> bool)
    ensures multiset(Insert(x, s, leq)) == multiset(s) + multiset{x}
  {
    if s != [] && !leq(s[|s| - 1], x) {
      InsertAdds(x, s[..|s| - 1], leq);
      assert s == s[..|s| - 1] + [s[|s| - 1]];
    }
  }

  lemma {:induction false} InsertKeeps<T(!new)>(x: T, s: seq<T>, leq: (T, T) -> bool)
    requires TotalPreorder(leq) && SortedBy(s, leq)
    ensures SortedBy(Insert(x, s, leq), leq)
    ensures multiset(Insert(x, s, leq)) == multiset(s) + multiset{x}
  {
    InsertAdds(x, s, leq);
    if s != [] {
      var front, last := s[..|s| - 1], s[|s| - 1];
      if leq(last, x) {
        LastIsGreatest(s, leq);
      } else {
        InsertKeeps(x, front, leq);
        AllBelow(x, front, last, leq);
      }
    }
  }

  lemma {:induction false} LastIsGreatest<T(!new)>(s: seq<T>, leq: (T, T) -> bool)
    requires TotalPreorder(leq) && SortedBy(s, leq) && s != []
    ensures forall i :: 0 <= i < |s| ==> leq(s[i], s[|s| - 1])
  {
  }

  lemma {:induction false} AllBelow<T(!new)>(x: T, front: seq<T>, last: T, leq: (T, T) -> bool)
    requires TotalPreorder(leq) && SortedBy(front + [last], leq) && !leq(last, x)
    ensures var r := Insert(x, front, leq); forall i :: 0 <= i < |r| ==> leq(r[i], last)
  {
    var r, s := Insert(x, front, leq), front + [last];
    InsertAdds(x, front, leq);
    forall i | 0 <= i < |r| ensures leq(r[i], last) {
      assert r[i] in multiset(r);
      if r[i] in front {
        var j :| 0 <= j < |front| && front[j] == r[i];
        assert leq(s[j], s[|front|]);
      }
    }
  }

  lemma {:induction false} SortSorts<T(!new)>(s: seq<T>, leq: (T, T) -> bool)
    requires TotalPreorder(leq)
    ensures SortedBy(SortBy(s, leq), leq)
    ensures multiset(SortBy(s, leq)) == multiset(s)
    ensures |SortBy(s, leq)| == |s|
    ensures forall x :: x in SortBy(s, leq) <==> x in s
  {
    if s != [] {
      SortSorts(s[..|s| - 1], leq);
      InsertKeeps(s[|s| - 1], SortBy(s[..|s| - 1], leq), leq);
      assert s == s[..|s| - 1] + [s[|s| - 1]];
    }
    SameElements(SortBy(s, leq), s);
  }

  /** No two different elements of s are equal in the order. */
  ghost predicate Distinguishes<T>(s: seq<T>, leq: (T, T) -> bool) {
    forall x, y :: x in s && y in s && leq(x, y) && leq(y, x) ==> x == y
  }

  lemma GreatestAgree<T(!new)>(s: seq<T>, t: seq<T>, leq: (T, T) -> bool)
    requires SortedBy(s, leq) && SortedBy(t, leq) && multiset(s) == multiset(t)
    requires Distinguishes(s, leq) && s != []
    ensures |s| == |t| && s[|s| - 1] == t[|t| - 1]
  {
    SameElements(s, t);
    var n := |s| - 1;
    assert s[n] in t && t[n] in s;
    var i :| 0 <= i < |t| && t[i] == s[n];
    var j :| 0 <= j < |s| && s[j] == t[n];
    assert i == n || leq(t[i], t[n]);
    assert j == n || leq(s[j], s[n]);
  }

  lemma FrontsAgree<T>(s: seq<T>, t: seq<T>)
    requires multiset(s) == multiset(t) && |s| == |t| && s != [] && s[|s| - 1] == t[|t| - 1]
    ensures multiset(s[..|s| - 1]) == multiset(t[..|t| - 1])
    ensures s[..|s| - 1] == t[..|t| - 1] ==> s == t
  {
    var n := |s| - 1;
    assert s == s[..n] + [s[n]] && t == t[..n] + [t[n]];
    assert multiset(s[..n]) == multiset(s) - multiset{s[n]};
    assert multiset(t[..n]) == multiset(t) - multiset{t[n]};
  }

  lemma FrontKeeps<T>(s: seq<T>, n: nat, leq: (T, T) -> bool)
    requires n <= |s|
    ensures SortedBy(s, leq) ==> SortedBy(s[..n], leq)
    ensures Distinguishes(s, leq) ==> Distinguishes(s[..n], leq)
  {
    assert forall x :: x in s[..n] ==> x in s;
  }

  /** Two sorted sequences of the same elements are equal when the order
      distinguishes them. */
  lemma {:induction false} SortedIsUnique<T(!new)>(s: seq<T>, t: seq<T>, leq: (T, T) -> bool)
    requires SortedBy(s, leq) && SortedBy(t, leq) && multiset(s) == multiset(t)
    requires Distinguishes(s, leq)
    ensures s == t
  {
    if s == [] {
      SameElements(s, t);
    } else {
      var n := |s| - 1;
      GreatestAgree(s, t, leq);
      FrontsAgree(s, t);
      FrontKeeps(s, n, leq);
      FrontKeeps(t, n, leq);
      SortedIsUnique(s[..n], t[..n], leq);
    }
  }

  lemma {:induction false} FilterInOrder<T(!new)>(s: seq<T>, leq: (T, T) -> bool, p: T -> bool)
    requires SortedBy(s, leq) && NoDuplicates(s)
    ensures SortedBy(Filter(s, p), leq) && NoDuplicates(Filter(s, p))
  {
    if s != [] {
      var n := |s| - 1;
      FilterInOrder(s[..n], leq, p);
      FilterKeeps(s[..n], p);
      forall x | x in Filter(s[..n], p) ensures leq(x, s[n]) && x != s[n] {
        BeforeTheLast(s, leq, x);
      }
      Appends(Filter(s[..n], p), s[n], leq);
    }
  }

  lemma {:induction false} BeforeTheLast<T>(s: seq<T>, leq: (T, T) -> bool, x: T)
    requires s != [] && SortedBy(s, leq) && NoDuplicates(s) && x in s[..|s| - 1]
    ensures leq(x, s[|s| - 1]) && x != s[|s| - 1]
  {
  }

  lemma {:induction false} Appends<T>(s: seq<T>, x: T, leq: (T, T) -> bool)
    requires SortedBy(s, leq) && NoDuplicates(s) && forall y :: y in s ==> leq(y, x) && y != x
    ensures SortedBy(s + [x], leq) && NoDuplicates(s + [x])
  {
    assert forall i :: 0 <= i < |s| ==> s[i] in s;
  }
}
