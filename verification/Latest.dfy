/** The last of several values of each key, and what became of the others:
    the tables two loops of internal/approval/evaluate.go build, over votes
    given by their keys and names. */
module Latest {

  // ---------------------------------------------------------- specification

  /** Position p is the last of the first n with key. */
  predicate IsLast<K(==)>(keys: seq<K>, n: nat, key: K, p: nat)
    requires n <= |keys|
  {
    p < n && keys[p] == key && forall i :: p < i < n ==> keys[i] != key
  }

  /** Of the same key, position l is the next after j. */
  predicate IsNext<K(==)>(keys: seq<K>, j: nat, l: nat)
    requires l < |keys|
  {
    j < l && IsLast(keys, l, keys[l], j)
  }

  /** The position of the last of the first n with key, n when there is none. */
  function LastOf<K(==)>(keys: seq<K>, n: nat, key: K): (i: nat)
    requires n <= |keys|
    ensures i <= n
    ensures i < n ==> IsLast(keys, n, key, i)
    ensures i == n ==> forall j :: 0 <= j < n ==> keys[j] != key
  {
    if n == 0 then 0
    else if keys[n - 1] == key then n - 1
    else
      var i := LastOf(keys, n - 1, key);
      if i == n - 1 then n else i
  }

  /** The next position at or after from with key, |keys| when there is none. */
  function NextFrom<K(==)>(keys: seq<K>, key: K, from: nat): (i: nat)
    requires from <= |keys|
    ensures from <= i <= |keys|
    ensures i < |keys| ==> keys[i] == key
    ensures forall j :: from <= j < i ==> keys[j] != key
    decreases |keys| - from
  {
    if from == |keys| || keys[from] == key then from else NextFrom(keys, key, from + 1)
  }

  function NextOf<K(==)>(keys: seq<K>, j: nat): (i: nat)
    requires j < |keys|
    ensures j < i <= |keys|
    ensures i < |keys| ==> IsNext(keys, j, i)
    ensures i == |keys| <==> IsLast(keys, |keys|, keys[j], j)
  {
    NextFrom(keys, keys[j], j + 1)
  }

  /** The distinct keys of the first n positions, by their first. */
  function Distinct<K(==)>(keys: seq<K>, n: nat): (order: seq<K>)
    requires n <= |keys|
    ensures |order| <= n
  {
    if n == 0 then []
    else if LastOf(keys, n - 1, keys[n - 1]) < n - 1 then Distinct(keys, n - 1)
    else Distinct(keys, n - 1) + [keys[n - 1]]
  }

  /** order holds exactly the keys of the first n positions, each once. */
  ghost predicate Covers<K(!new)>(keys: seq<K>, n: nat, order: seq<K>)
    requires n <= |keys|
  {
    && (forall k :: k in order <==> LastOf(keys, n, k) < n)
    && (forall i, j :: 0 <= i < j < |order| ==> order[i] != order[j])
  }

  lemma {:induction false} DistinctCovers<K(!new)>(keys: seq<K>, n: nat)
    requires n <= |keys|
    ensures Covers(keys, n, Distinct(keys, n))
  {
    if n > 0 {
      DistinctCovers(keys, n - 1);
      var front, order, key := Distinct(keys, n - 1), Distinct(keys, n), keys[n - 1];
      forall k ensures k in order <==> LastOf(keys, n, k) < n {
        assert k in order <==> k in front || k == key;
      }
    }
  }

  /** The positions that are the last of their key, in the order of Distinct. */
  function Lasts<K(==)>(keys: seq<K>): (at: seq<nat>)
    ensures |at| == |Distinct(keys, |keys|)|
  {
    var order := Distinct(keys, |keys|);
    seq(|order|, i requires 0 <= i < |order| => LastOf(keys, |keys|, order[i]))
  }

  predicate Unique<N(==)>(names: seq<N>) {
    forall i, j :: 0 <= i < j < |names| ==> names[i] != names[j]
  }

  // --------------------------------------------------------------- the tables

  /** The verdicts after the positions among the first n that another follows. */
  function FollowedOf<K(==), N(==), V>(keys: seq<K>, names: seq<N>, followed: N -> V, n: nat, given: map<N, V>): map<N, V>
    requires n <= |keys| == |names|
  {
    if n == 0 then given
    else
      var verdicts, p := FollowedOf(keys, names, followed, n - 1, given), LastOf(keys, n - 1, keys[n - 1]);
      if p < n - 1 then verdicts[names[p] := followed(names[n - 1])] else verdicts
  }

  /** The verdicts after the first n of the positions at. */
  function DecidedOf<N(==), V>(names: seq<N>, at: seq<nat>, verdict: nat -> V, n: nat, given: map<N, V>): map<N, V>
    requires n <= |at| && forall i :: 0 <= i < n ==> at[i] < |names|
  {
    if n == 0 then given
    else DecidedOf(names, at, verdict, n - 1, given)[names[at[n - 1]] := verdict(at[n - 1])]
  }

  ghost predicate Has<N, V>(verdicts: map<N, V>, name: N, v: V) {
    name in verdicts && verdicts[name] == v
  }

  /** Every one of the first n positions that another of them follows has its
      verdict. */
  ghost predicate FollowedSoFar<K, N, V>(keys: seq<K>, names: seq<N>, followed: N -> V, n: nat, verdicts: map<N, V>)
    requires n <= |keys| == |names|
  {
    forall j, l :: 0 <= j < l < n && IsNext(keys, j, l) ==> Has(verdicts, names[j], followed(names[l]))
  }

  /** Only verdicts on names were set. */
  ghost predicate SetOnly<N(!new), V>(names: seq<N>, given: map<N, V>, verdicts: map<N, V>) {
    forall m :: m !in names ==> (m in given <==> m in verdicts) && (m in given ==> given[m] == verdicts[m])
  }

  lemma {:induction false} FollowedVerdicts<K, N(!new), V>(keys: seq<K>, names: seq<N>, followed: N -> V, n: nat, given: map<N, V>)
    requires n <= |keys| == |names| && Unique(names)
    ensures var v := FollowedOf(keys, names, followed, n, given);
            SetOnly(names, given, v) && FollowedSoFar(keys, names, followed, n, v)
  {
    if n > 0 {
      FollowedVerdicts(keys, names, followed, n - 1, given);
      FollowedStep(keys, names, followed, n, FollowedOf(keys, names, followed, n - 1, given));
    }
  }

  lemma {:induction false} FollowedStep<K, N, V>(keys: seq<K>, names: seq<N>, followed: N -> V, n: nat, verdicts: map<N, V>)
    requires 0 < n <= |keys| == |names| && Unique(names) && FollowedSoFar(keys, names, followed, n - 1, verdicts)
    ensures var p := LastOf(keys, n - 1, keys[n - 1]);
            FollowedSoFar(keys, names, followed, n, if p < n - 1 then verdicts[names[p] := followed(names[n - 1])] else verdicts)
  {
    var p := LastOf(keys, n - 1, keys[n - 1]);
    forall j, l | 0 <= j < l < n && IsNext(keys, j, l) ensures if l == n - 1 then j == p else j != p {
    }
  }

  /** What the loop over the last positions leaves. */
  lemma {:induction false} DecidedVerdicts<K, N(!new), V>(
    keys: seq<K>, names: seq<N>, followed: N -> V, at: seq<nat>, verdict: nat -> V, n: nat, given: map<N, V>)
    requires |keys| == |names| && Unique(names) && FollowedSoFar(keys, names, followed, |keys|, given)
    requires n <= |at| && forall i :: 0 <= i < |at| ==> at[i] < |keys| && IsLast(keys, |keys|, keys[at[i]], at[i])
    ensures var v := DecidedOf(names, at, verdict, n, given);
            && SetOnly(names, given, v)
            && FollowedSoFar(keys, names, followed, |keys|, v)
            && forall i :: 0 <= i < n ==> Has(v, names[at[i]], verdict(at[i]))
  {
    if n > 0 {
      DecidedVerdicts(keys, names, followed, at, verdict, n - 1, given);
      var v, p := DecidedOf(names, at, verdict, n - 1, given), at[n - 1];
      DecideStep(keys, names, followed, p, verdict(p), v);
      assert names[p] in names;
      forall i | 0 <= i < n ensures Has(v[names[p] := verdict(p)], names[at[i]], verdict(at[i])) {
        SetAlike(names, verdict, p, at[i], v);
      }
    }
  }

  /** Setting the verdict on position p leaves that on q as it is, if it has one. */
  lemma {:induction false} SetAlike<N(!new), V>(names: seq<N>, verdict: nat -> V, p: nat, q: nat, v: map<N, V>)
    requires Unique(names) && p < |names| && q < |names| && (p == q || Has(v, names[q], verdict(q)))
    ensures Has(v[names[p] := verdict(p)], names[q], verdict(q))
  {
  }

  /** No other position follows the last of a key, so its own verdict replaces
      none. */
  lemma {:induction false} DecideStep<K, N, V>(keys: seq<K>, names: seq<N>, followed: N -> V, p: nat, v: V, verdicts: map<N, V>)
    requires |keys| == |names| && Unique(names) && FollowedSoFar(keys, names, followed, |keys|, verdicts)
    requires p < |keys| && IsLast(keys, |keys|, keys[p], p)
    ensures FollowedSoFar(keys, names, followed, |keys|, verdicts[names[p] := v])
  {
  }

  /** The verdict on position j: that of the one that follows it, or its own
      when it is the last of its key. */
  function VerdictAt<K(==), N, V>(keys: seq<K>, names: seq<N>, followed: N -> V, verdict: nat -> V, j: nat): V
    requires j < |keys| == |names|
  {
    var l := NextOf(keys, j);
    if l < |keys| then followed(names[l]) else verdict(j)
  }

  lemma {:induction false} TableIsRight<K(!new), N(!new), V>(
    keys: seq<K>, names: seq<N>, followed: N -> V, verdict: nat -> V, given: map<N, V>)
    requires |keys| == |names| && Unique(names)
    ensures forall i :: 0 <= i < |Lasts(keys)| ==> Lasts(keys)[i] < |keys|
    ensures var v := DecidedOf(names, Lasts(keys), verdict, |Lasts(keys)|, FollowedOf(keys, names, followed, |keys|, given));
            && SetOnly(names, given, v)
            && forall j :: 0 <= j < |keys| ==> Has(v, names[j], VerdictAt(keys, names, followed, verdict, j))
  {
    LastsAreLast(keys);
    FollowedVerdicts(keys, names, followed, |keys|, given);
    DecidedVerdicts(keys, names, followed, Lasts(keys), verdict, |Lasts(keys)|, FollowedOf(keys, names, followed, |keys|, given));
    var v := DecidedOf(names, Lasts(keys), verdict, |Lasts(keys)|, FollowedOf(keys, names, followed, |keys|, given));
    forall j | 0 <= j < |keys| ensures Has(v, names[j], VerdictAt(keys, names, followed, verdict, j)) {
      if NextOf(keys, j) == |keys| {
        var i :| 0 <= i < |Lasts(keys)| && Lasts(keys)[i] == j;
      } else {
        assert IsNext(keys, j, NextOf(keys, j));
      }
    }
  }

  lemma {:induction false} LastsAreLast<K(!new)>(keys: seq<K>)
    ensures var at := Lasts(keys);
            && (forall i :: 0 <= i < |at| ==> at[i] < |keys| && IsLast(keys, |keys|, keys[at[i]], at[i]))
            && (forall i, j :: 0 <= i < j < |at| ==> at[i] != at[j])
            && (forall j :: 0 <= j < |keys| && IsLast(keys, |keys|, keys[j], j) ==> j in at)
  {
    DistinctCovers(keys, |keys|);
    var order, at := Distinct(keys, |keys|), Lasts(keys);
    forall i | 0 <= i < |at| ensures at[i] < |keys| && keys[at[i]] == order[i] && IsLast(keys, |keys|, keys[at[i]], at[i]) {
      assert order[i] in order;
    }
    forall j | 0 <= j < |keys| && IsLast(keys, |keys|, keys[j], j) ensures j in at {
      assert keys[j] in order;
      var i :| 0 <= i < |order| && order[i] == keys[j];
      assert at[i] == j;
    }
  }

  /** One more position takes the place of the last of its key, or comes after
      the others. */
  lemma {:induction false} LastsExtend<K(!new)>(keys: seq<K>, key: K) returns (i: nat)
    ensures i <= |Lasts(keys)|
    ensures i < |Lasts(keys)| ==> Lasts(keys)[i] == LastOf(keys, |keys|, key) < |keys|
    ensures Lasts(keys + [key]) == if i < |Lasts(keys)| then Lasts(keys)[i := |keys|] else Lasts(keys) + [|keys|]
  {
    var n, more, order := |keys|, keys + [key], Distinct(keys, |keys|);
    Prefix(keys, key, n);
    DistinctCovers(keys, n);
    assert Distinct(more, n) == order;
    forall k ensures LastOf(more, n + 1, k) == if k == key then n else if LastOf(keys, n, k) == n then n + 1 else LastOf(keys, n, k) {
      PrefixLast(keys, key, n, k);
    }
    assert more[..n] == keys && more[n] == key;
    if key in order {
      i :| 0 <= i < |order| && order[i] == key;
      assert Distinct(more, n + 1) == order;
    } else {
      i := |order|;
      assert Distinct(more, n + 1) == order + [key];
    }
    forall m | 0 <= m < |Lasts(more)|
      ensures Lasts(more)[m] == if m == i then n else Lasts(keys)[m]
    {
      assert m < |order| ==> order[m] in order;
    }
  }

  lemma {:induction false} Prefix<K>(keys: seq<K>, key: K, n: nat)
    requires n <= |keys|
    ensures Distinct(keys + [key], n) == Distinct(keys, n)
  {
    if n > 0 {
      Prefix(keys, key, n - 1);
      PrefixLast(keys, key, n - 1, keys[n - 1]);
    }
  }

  lemma {:induction false} PrefixLast<K>(keys: seq<K>, key: K, n: nat, k: K)
    requires n <= |keys|
    ensures LastOf(keys + [key], n, k) == LastOf(keys, n, k)
  {
    if n > 0 {
      PrefixLast(keys, key, n - 1, k);
    }
  }

  /** latest maps every key of the first n positions to the last of them. */
  ghost predicate IsLatest<K(!new)>(keys: seq<K>, n: nat, latest: map<K, nat>)
    requires n <= |keys|
  {
    forall k :: (k in latest <==> LastOf(keys, n, k) < n) && (k in latest ==> latest[k] == LastOf(keys, n, k))
  }

  lemma {:induction false} LatestStep<K(!new)>(keys: seq<K>, n: nat, latest: map<K, nat>)
    requires n < |keys| && IsLatest(keys, n, latest)
    ensures IsLatest(keys, n + 1, latest[keys[n] := n])
  {
  }

  /** What position n adds to the tables. */
  lemma {:induction false} TableStep<K(!new), N, V>(keys: seq<K>, names: seq<N>, followed: N -> V, n: nat, latest: map<K, nat>, given: map<N, V>)
    requires n < |keys| == |names| && IsLatest(keys, n, latest)
    ensures IsLatest(keys, n + 1, latest[keys[n] := n])
    ensures var v, w := FollowedOf(keys, names, followed, n, given), FollowedOf(keys, names, followed, n + 1, given);
            if keys[n] in latest then
              latest[keys[n]] < n && Distinct(keys, n + 1) == Distinct(keys, n) && w == v[names[latest[keys[n]]] := followed(names[n])]
            else
              Distinct(keys, n + 1) == Distinct(keys, n) + [keys[n]] && w == v
  {
    LatestStep(keys, n, latest);
    assert keys[n] in latest <==> LastOf(keys, n, keys[n]) < n;
  }

  // ----------------------------------------------------------- of some chosen

  /** The last of the first n positions that is chosen and has key, n when there
      is none. */
  function LastChosen<K(==)>(keys: seq<K>, chosen: seq<bool>, n: nat, key: K): (i: nat)
    requires n <= |keys| == |chosen|
    ensures i <= n
    ensures i < n ==> keys[i] == key && chosen[i]
    ensures forall j :: i < j < n && chosen[j] ==> keys[j] != key
    ensures i == n ==> forall j :: 0 <= j < n && chosen[j] ==> keys[j] != key
  {
    if n == 0 then 0
    else if keys[n - 1] == key && chosen[n - 1] then n - 1
    else
      var i := LastChosen(keys, chosen, n - 1, key);
      if i == n - 1 then n else i
  }

  ghost predicate IsLatestChosen<K(!new)>(keys: seq<K>, chosen: seq<bool>, n: nat, latest: map<K, nat>)
    requires n <= |keys| == |chosen|
  {
    forall k :: (k in latest <==> LastChosen(keys, chosen, n, k) < n) && (k in latest ==> latest[k] == LastChosen(keys, chosen, n, k))
  }

  lemma {:induction false} LatestChosenStep<K(!new)>(keys: seq<K>, chosen: seq<bool>, n: nat, latest: map<K, nat>)
    requires n < |keys| == |chosen| && IsLatestChosen(keys, chosen, n, latest)
    ensures IsLatestChosen(keys, chosen, n + 1, if chosen[n] then latest[keys[n] := n] else latest)
  {
  }

  // ------------------------------------------------------------ of every name

  /** The verdicts on the first n names, set one after the other. */
  ghost predicate SetUpTo<N(!new), V>(names: seq<N>, verdict: nat -> V, n: nat, given: map<N, V>, verdicts: map<N, V>)
    requires n <= |names|
  {
    SetOnly(names, given, verdicts) && forall j :: 0 <= j < n ==> Has(verdicts, names[j], verdict(j))
  }

  lemma {:induction false} SetStep<N(!new), V>(names: seq<N>, verdict: nat -> V, n: nat, given: map<N, V>, verdicts: map<N, V>)
    requires n < |names| && Unique(names) && SetUpTo(names, verdict, n, given, verdicts)
    ensures SetUpTo(names, verdict, n + 1, given, verdicts[names[n] := verdict(n)])
  {
    assert names[n] in names;
  }
}
