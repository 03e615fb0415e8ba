/** What sealing the votes on a Preparation preserves. */
module SealingPreserves {
  import opened Latest
  import opened Options
  import opened Preparations
  import opened Sorting
  import opened Times
  import opened Approvals

  /** prep after its votes, as they are in approvals, are sealed at t. */
  function SealedAt(prep: Preparation, approvals: seq<Approval>, t: Time): Preparation
    requires prep.policy.Some?
  {
    var status := StatusOf(prep, approvals).(sealedTime := Some(t), attestation := None);
    prep.(status := prep.status.(approval := Some(status), sealed := false))
  }

  /** The positions of the votes that are sealed. */
  function SealedPositions(s: seq<Approval>): seq<nat> {
    var at := Lasts(KeysIn(s));
    if |at| > MAX_APPROVERS then at[..MAX_APPROVERS] else at
  }

  lemma {:induction false} SealedVotes(policy: Policy, s: seq<Approval>)
    ensures var votes, at := OpenVotes(policy, s), SealedPositions(s);
            && |votes| == |at|
            && (forall i :: 0 <= i < |at| ==> at[i] < |s| && votes[i] == VoteOf(policy, s[at[i]]) && IsLast(KeysIn(s), |s|, Key(s[at[i]]), at[i]))
  {
    LastsAreLast(KeysIn(s));
  }

  lemma {:induction false} NamedIff(policy: Policy, s: seq<Approval>, j: nat)
    requires UniqueNames(s) && j < |s|
    ensures var vote := VoteNamed(OpenVotes(policy, s), s[j].name);
            && (vote.Some? <==> j in SealedPositions(s))
            && (vote.Some? ==> (vote.value.result == VoteCounted <==> Eligible(policy, s[j].approver.groups)))
  {
    SealedVotes(policy, s);
    var votes, at := OpenVotes(policy, s), SealedPositions(s);
    var names := VoteNames(votes);
    if j in at {
      var k :| 0 <= k < |at| && at[k] == j;
      assert names[k] == s[j].name;
    }
    var i := LastOf(names, |votes|, s[j].name);
    if i < |votes| {
      assert names[i] == s[at[i]].name;
      UniqueByName(s, at[i], j);
    }
  }

  /** The names of sealed votes are those of Approvals that were there. */
  lemma {:induction false} NamedWasThere(policy: Policy, s: seq<Approval>, name: string) returns (p: nat)
    requires VoteNamed(OpenVotes(policy, s), name).Some?
    ensures p < |s| && s[p].name == name && p in SealedPositions(s) && IsLast(KeysIn(s), |s|, Key(s[p]), p)
  {
    SealedVotes(policy, s);
    var votes := OpenVotes(policy, s);
    var i := LastOf(VoteNames(votes), |votes|, name);
    assert VoteNames(votes)[i] == votes[i].approvalName;
    p := SealedPositions(s)[i];
  }

  /** Of any votes l that include s, the sealed Approval of an approver is the
      last one of s, if that was sealed. */
  lemma {:induction false} SealedIsLast(policy: Policy, s: seq<Approval>, l: seq<Approval>, key: ApproverKey, p: nat)
    requires UniqueNames(s) && UniqueNames(l) && forall a :: a in s ==> a in l
    requires p < |s| && IsLast(KeysIn(s), |s|, key, p)
    ensures var i := SealedOf(l, OpenVotes(policy, s), key);
            && (i < |l| <==> p in SealedPositions(s))
            && (i < |l| ==> l[i] == s[p])
  {
    var votes := OpenVotes(policy, s);
    if p in SealedPositions(s) {
      NamedIff(policy, s, p);
      assert s[p] in l;
      var k :| 0 <= k < |l| && l[k] == s[p];
      assert SealedIn(l, votes)[k] && KeysIn(l)[k] == key;
    }
    var i := SealedOf(l, votes, key);
    if i < |l| {
      var q := SealedIsThere(policy, s, l, i);
      LastIsOne(KeysIn(s), |s|, key, p, q);
    }
  }

  lemma {:induction false} LastIsOne<K>(keys: seq<K>, n: nat, key: K, p: nat, q: nat)
    requires n <= |keys| && IsLast(keys, n, key, p) && IsLast(keys, n, key, q)
    ensures p == q
  {
  }

  lemma {:induction false} SealedIsThere(policy: Policy, s: seq<Approval>, l: seq<Approval>, i: nat) returns (q: nat)
    requires UniqueNames(l) && (forall a :: a in s ==> a in l) && i < |l|
    requires VoteNamed(OpenVotes(policy, s), l[i].name).Some?
    ensures q < |s| && s[q] == l[i] && q in SealedPositions(s) && IsLast(KeysIn(s), |s|, Key(l[i]), q)
  {
    q := NamedWasThere(policy, s, l[i].name);
    assert s[q] in l;
    var k :| 0 <= k < |l| && l[k] == s[q];
    UniqueByName(l, i, k);
  }

  lemma {:induction false} LaterIsGreater(s: seq<Approval>, j: nat, p: nat)
    requires UniqueNames(s) && SortedBy(s, Leq) && j < p < |s|
    ensures Compare(s[j], s[p]) < 0
  {
    assert Leq(s[j], s[p]);
    if Compare(s[j], s[p]) == 0 {
      CompareIsZeroIff(s[j].name, s[p].name);
      UniqueByName(s, j, p);
    }
  }

  predicate SameVerdict(v: Verdict, w: Verdict) {
    v.counted == w.counted && v.reason == w.reason
  }

  /** A vote keeps its verdict when votes are sealed exactly when the latest vote
      of its approver is among the first 64. */
  lemma {:induction false} VerdictKeptIff(policy: Policy, s: seq<Approval>, l: seq<Approval>, j: nat)
    requires UniqueNames(s) && SortedBy(s, Leq) && UniqueNames(l) && forall a :: a in s ==> a in l
    requires j < |s|
    ensures SameVerdict(OpenVerdict(policy, s, j), SealedVerdict(l, OpenVotes(policy, s), s[j])) <==>
            LastOf(KeysIn(s), |s|, Key(s[j])) in SealedPositions(s)
  {
    var p := LastOf(KeysIn(s), |s|, Key(s[j]));
    assert KeysIn(s)[j] == Key(s[j]);
    NamedIff(policy, s, j);
    SealedIsLast(policy, s, l, Key(s[j]), p);
    if NextOf(KeysIn(s), j) == |s| {
      LastIsOne(KeysIn(s), |s|, Key(s[j]), j, p);
    } else {
      SealedVotes(policy, s);
      LaterIsGreater(s, j, p);
    }
  }

  predicate Includes(later: seq<Approval>, approvals: seq<Approval>) {
    forall i :: 0 <= i < |approvals| ==> approvals[i] in later
  }

  /** Every vote present at the seal keeps its verdict, whatever votes come later. */
  predicate VerdictsKept(prep: Preparation, sealed: Preparation, approvals: seq<Approval>, later: seq<Approval>) {
    forall i :: 0 <= i < |approvals| ==>
      SameVerdict(VerdictOn(prep, approvals, approvals[i]), VerdictOn(sealed, later, approvals[i]))
  }

  lemma {:induction false} VerdictOf(prep: Preparation, sealed: Preparation, approvals: seq<Approval>, later: seq<Approval>, t: Time, j: nat)
    requires prep.policy.Some? && !IsSealed(prep) && sealed == SealedAt(prep, approvals, t)
    requires UniqueNames(approvals) && UniqueNames(later) && Includes(later, approvals)
    requires j < |SortedVotes(prep, approvals)|
    ensures var s := SortedVotes(prep, approvals);
            SameVerdict(VerdictOn(prep, approvals, s[j]), VerdictOn(sealed, later, s[j])) <==>
            LastOf(KeysIn(s), |s|, Key(s[j])) in SealedPositions(s)
  {
    var s, l := SortedVotes(prep, approvals), SortedVotes(sealed, later);
    SortedIsMatching(prep, approvals);
    SortedIsMatching(sealed, later);
    PositionOf(s, j);
    assert s[j] in s;
    VerdictKeptIff(prep.policy.value, s, l, j);
  }

  /** Sealing preserves the verdicts on all votes, over any votes cast later,
      exactly when at most 64 approvers voted. */
  lemma {:induction false} SealingKeepsVerdictsIff(prep: Preparation, approvals: seq<Approval>, later: seq<Approval>, t: Time)
    requires prep.policy.Some? && !IsSealed(prep)
    requires UniqueNames(approvals) && UniqueNames(later) && Includes(later, approvals)
    ensures VerdictsKept(prep, SealedAt(prep, approvals, t), approvals, later) <==>
            |AllVotes(prep.policy.value, SortedVotes(prep, approvals))| <= MAX_APPROVERS
  {
    var sealed, s := SealedAt(prep, approvals, t), SortedVotes(prep, approvals);
    var at := Lasts(KeysIn(s));
    SortedIsMatching(prep, approvals);
    LastsAreLast(KeysIn(s));
    if |at| <= MAX_APPROVERS {
      forall i | 0 <= i < |approvals|
        ensures SameVerdict(VerdictOn(prep, approvals, approvals[i]), VerdictOn(sealed, later, approvals[i]))
      {
        if Matches(prep, approvals[i]) {
          assert approvals[i] in s;
          var j :| 0 <= j < |s| && s[j] == approvals[i];
          VerdictOf(prep, sealed, approvals, later, t, j);
          assert KeysIn(s)[j] == Key(s[j]);
        }
      }
    } else {
      var j := at[MAX_APPROVERS];
      VerdictOf(prep, sealed, approvals, later, t, j);
      LastIsOne(KeysIn(s), |s|, Key(s[j]), j, LastOf(KeysIn(s), |s|, Key(s[j])));
      assert j !in SealedPositions(s);
      assert s[j] in s && s[j] in approvals;
      var i :| 0 <= i < |approvals| && approvals[i] == s[j];
    }
  }

  /** Sealing keeps the outcome and the counts, and from then on nothing that is
      cast changes them. */
  lemma {:induction false} SealingFixesTheOutcome(prep: Preparation, approvals: seq<Approval>, later: seq<Approval>, t: Time)
    requires prep.policy.Some? && !IsSealed(prep)
    ensures var sealed := SealedAt(prep, approvals, t);
            var e, f := EvaluationOf(prep, approvals), EvaluationOf(sealed, later);
            && f.required && f.approved == e.approved && f.reason == e.reason && f.message == e.message
            && f.status.value == sealed.status.approval.value.(submissionCount := f.status.value.submissionCount)
            && f.status.value.votes == e.status.value.votes
  {
  }
}
