/** Counting in sequences, whatever their order. */
module Sequences {

  function Count<T>(s: seq<T>, p: T -> bool): (n: nat)
    ensures n <= |s|
  {
    if s == [] then 0 else Count(s[..|s| - 1], p) + if p(s[|s| - 1]) then 1 else 0
  }

  function Filter<T>(s: seq<T>, p: T -> bool): seq<T> {
    if s == [] then [] else Filter(s[..|s| - 1], p) + if p(s[|s| - 1]) then [s[|s| - 1]] else []
  }

  lemma SameElements<T>(s: seq<T>, t: seq<T>)
    requires multiset(s) == multiset(t)
    ensures |s| == |t| && forall x :: x in s <==> x in t
  {
    assert |multiset(s)| == |s| && |multiset(t)| == |t|;
    forall x ensures x in s <==> x in t {
      assert x in s <==> x in multiset(s);
      assert x in t <==> x in multiset(t);
    }
  }

  lemma {:induction false} OneMore<T>(s: seq<T>, i: nat)
    requires i < |s|
    ensures s[..i + 1] == s[..i] + [s[i]] && s[..i + 1][..i] == s[..i]
  {
  }

  lemma {:induction false} CountIsZeroIff<T>(s: seq<T>, p: T -> bool)
    ensures Count(s, p) == 0 <==> forall x :: x in s ==> !p(x)
  {
    if s != [] {
      CountIsZeroIff(s[..|s| - 1], p);
      assert s[|s| - 1] in s;
      assert forall x :: x in s ==> x in s[..|s| - 1] || x == s[|s| - 1];
    }
  }

  lemma {:induction false} CountAppends<T>(s: seq<T>, t: seq<T>, p: T -> bool)
    ensures Count(s + t, p) == Count(s, p) + Count(t, p)
  {
    if t == [] {
      assert s + t == s;
    } else {
      CountAppends(s, t[..|t| - 1], p);
      assert (s + t)[..|s + t| - 1] == s + t[..|t| - 1];
    }
  }

  lemma {:induction false} CountSplits<T>(s: seq<T>, i: nat, p: T -> bool)
    requires i < |s|
    ensures Count(s, p) == Count(s[..i], p) + Count(s[i + 1..], p) + if p(s[i]) then 1 else 0
  {
    assert s == (s[..i] + [s[i]]) + s[i + 1..];
    CountAppends(s[..i] + [s[i]], s[i + 1..], p);
    assert (s[..i] + [s[i]])[..i] == s[..i];
  }

  lemma {:induction false} CountUpdates<T>(s: seq<T>, i: nat, x: T, p: T -> bool)
    requires i < |s|
    ensures Count(s[i := x], p) == Count(s, p) - (if p(s[i]) then 1 else 0) + (if p(x) then 1 else 0)
  {
    CountSplits(s, i, p);
    CountSplits(s[i := x], i, p);
    assert s[i := x][..i] == s[..i] && s[i := x][i + 1..] == s[i + 1..];
  }

  lemma {:induction false} RemoveOne<T>(t: seq<T>, i: nat)
    requires i < |t|
    ensures multiset(t[..i] + t[i + 1..]) == multiset(t) - multiset{t[i]}
  {
    assert t == t[..i] + [t[i]] + t[i + 1..];
  }

  /** Counts do not depend on the order. */
  lemma {:induction false} CountPermutes<T>(s: seq<T>, t: seq<T>, p: T -> bool)
    requires multiset(s) == multiset(t)
    ensures Count(s, p) == Count(t, p)
  {
    SameElements(s, t);
    if s != [] {
      var n := |s| - 1;
      assert s[n] in t;
      var i :| 0 <= i < |t| && t[i] == s[n];
      RemoveOne(s, n);
      RemoveOne(t, i);
      assert s[..n] + s[n + 1..] == s[..n];
      CountPermutes(s[..n], t[..i] + t[i + 1..], p);
      CountSplits(t, i, p);
      CountAppends(t[..i], t[i + 1..], p);
    }
  }

  predicate NoDuplicates<T(==)>(s: seq<T>) {
    forall i, j :: 0 <= i < j < |s| ==> s[i] != s[j]
  }

  /** Without duplicates, what is in a sequence is all there is to it but the
      order. */
  lemma {:induction false} SameSets<T(!new)>(s: seq<T>, t: seq<T>)
    requires NoDuplicates(s) && NoDuplicates(t) && forall x :: x in s <==> x in t
    ensures multiset(s) == multiset(t)
  {
    forall x ensures multiset(s)[x] == multiset(t)[x] {
      Once(s, x);
      Once(t, x);
    }
  }

  lemma {:induction false} Once<T>(s: seq<T>, x: T)
    requires NoDuplicates(s)
    ensures multiset(s)[x] == if x in s then 1 else 0
  {
    if s != [] {
      var n := |s| - 1;
      Once(s[..n], x);
      assert s == s[..n] + [s[n]];
    }
  }

  lemma {:induction false} FilterKeeps<T(!new)>(s: seq<T>, p: T -> bool)
    ensures forall x :: x in Filter(s, p) <==> x in s && p(x)
    ensures multiset(Filter(s, p)) <= multiset(s)
    ensures |Filter(s, p)| == Count(s, p)
  {
    if s != [] {
      FilterKeeps(s[..|s| - 1], p);
      assert s == s[..|s| - 1] + [s[|s| - 1]];
    }
  }

  /** at maps every element of s to its position. */
  ghost predicate IsIndex<T(!new)>(s: seq<T>, at: map<T, nat>) {
    && (forall x :: x in at ==> at[x] < |s| && s[at[x]] == x)
    && (forall i :: 0 <= i < |s| ==> s[i] in at)
  }

  lemma {:induction false} IndexAdds<T(!new)>(s: seq<T>, at: map<T, nat>, x: T)
    requires IsIndex(s, at) && NoDuplicates(s) && x !in at
    ensures IsIndex(s + [x], at[x := |s|]) && NoDuplicates(s + [x]) && x !in s
  {
  }

  function Chosen<T(==)>(s: seq<T>, p: T -> bool): set<T> {
    set x | x in s && p(x)
  }

  /** Without duplicates, what is counted is how many there are. */
  lemma {:induction false} CountIsSize<T(!new)>(s: seq<T>, p: T -> bool)
    requires NoDuplicates(s)
    ensures Count(s, p) == |Chosen(s, p)|
  {
    if s == [] {
      assert Chosen(s, p) == {};
    } else {
      var n := |s| - 1;
      CountIsSize(s[..n], p);
      assert s == s[..n] + [s[n]];
      assert Chosen(s, p) == if p(s[n]) then Chosen(s[..n], p) + {s[n]} else Chosen(s[..n], p);
    }
  }
}
