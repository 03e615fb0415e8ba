/** What the evaluation of the votes on a Preparation depends on. */
module ApprovalProperties {
  import opened Latest
  import opened Preparations
  import opened Sequences
  import opened Sorting
  import opened Approvals

  // ---------------------------------------------------------- any order

  lemma {:induction false} MatchingCounts(prep: Preparation, s: seq<Approval>, x: Approval)
    ensures multiset(Matching(prep, s))[x] == if Matches(prep, x) then multiset(s)[x] else 0
  {
    if s != [] {
      MatchingCounts(prep, s[..|s| - 1], x);
      assert s == s[..|s| - 1] + [s[|s| - 1]];
    }
  }

  lemma {:induction false} NamesDistinguish(s: seq<Approval>)
    requires UniqueNames(s)
    ensures Distinguishes(s, Leq)
  {
    forall x, y | x in s && y in s && Leq(x, y) && Leq(y, x) ensures x == y {
      CompareReverses(x.name, y.name);
      CompareIsZeroIff(x.name, y.name);
      var i :| 0 <= i < |s| && s[i] == x;
      var j :| 0 <= j < |s| && s[j] == y;
      UniqueByName(s, i, j);
    }
  }

  /** A set of Approvals sorts in one way. */
  lemma {:induction false} SortsAlike(s: seq<Approval>, t: seq<Approval>)
    requires multiset(s) == multiset(t) && UniqueNames(s)
    ensures SortBy(s, Leq) == SortBy(t, Leq)
  {
    LeqIsTotal();
    SortSorts(s, Leq);
    SortSorts(t, Leq);
    UniqueInPermutation(s, SortBy(s, Leq));
    NamesDistinguish(SortBy(s, Leq));
    SortedIsUnique(SortBy(s, Leq), SortBy(t, Leq), Leq);
  }

  lemma {:induction false} SameVotes(prep: Preparation, a: seq<Approval>, b: seq<Approval>)
    requires UniqueNames(a) && multiset(a) == multiset(b)
    ensures SortedVotes(prep, a) == SortedVotes(prep, b)
  {
    MatchingIsUnique(prep, a);
    forall x ensures multiset(Matching(prep, a))[x] == multiset(Matching(prep, b))[x] {
      MatchingCounts(prep, a, x);
      MatchingCounts(prep, b, x);
    }
    SortsAlike(Matching(prep, a), Matching(prep, b));
  }

  /** The evaluation does not depend on the order of the Approvals. */
  lemma {:induction false} OrderIndependent(prep: Preparation, a: seq<Approval>, b: seq<Approval>)
    requires UniqueNames(a) && multiset(a) == multiset(b)
    ensures UniqueNames(b)
    ensures EvaluationOf(prep, a) == EvaluationOf(prep, b)
    ensures forall x :: VerdictOn(prep, a, x) == VerdictOn(prep, b, x)
  {
    UniqueInPermutation(a, b);
    SameVotes(prep, a, b);
    SameElements(a, b);
  }

  // ------------------------------------------------------- the last vote wins

  /** The vote at position j is the greatest of its approver's. */
  predicate IsGreatest(s: seq<Approval>, j: nat)
    requires j < |s|
  {
    forall i :: 0 <= i < |s| && KeysIn(s)[i] == KeysIn(s)[j] ==> Leq(s[i], s[j])
  }

  lemma {:induction false} GreatestIsLast(s: seq<Approval>, j: nat)
    requires UniqueNames(s) && SortedBy(s, Leq) && j < |s|
    ensures IsGreatest(s, j) <==> IsLast(KeysIn(s), |s|, KeysIn(s)[j], j)
  {
    LeqIsTotal();
    if IsGreatest(s, j) {
      NamesDistinguish(s);
      forall i | j < i < |s| ensures KeysIn(s)[i] != KeysIn(s)[j] {
        if KeysIn(s)[i] == KeysIn(s)[j] {
          assert Leq(s[j], s[i]) && Leq(s[i], s[j]);
          assert s[i] in s && s[j] in s;
          UniqueByName(s, i, j);
        }
      }
    } else {
      var i :| 0 <= i < |s| && KeysIn(s)[i] == KeysIn(s)[j] && !Leq(s[i], s[j]);
    }
  }

  /** While voting is open, before they are cut to 64, the votes are those of the
      greatest matching Approval of each approver, once each. */
  lemma {:induction false} VotesAreGreatest(policy: Policy, s: seq<Approval>)
    requires UniqueNames(s) && SortedBy(s, Leq)
    ensures var votes, at := AllVotes(policy, s), Lasts(KeysIn(s));
            && |votes| == |at| && NoDuplicates(at)
            && (forall i :: 0 <= i < |at| ==> at[i] < |s| && IsGreatest(s, at[i]) && votes[i] == VoteOf(policy, s[at[i]]))
            && (forall j :: 0 <= j < |s| && IsGreatest(s, j) ==> j in at)
            && NoDuplicates(votes)
  {
    LastsAreLast(KeysIn(s));
    var votes, at := AllVotes(policy, s), Lasts(KeysIn(s));
    forall i | 0 <= i < |at| ensures IsGreatest(s, at[i]) {
      GreatestIsLast(s, at[i]);
    }
    forall j | 0 <= j < |s| && IsGreatest(s, j) ensures j in at {
      GreatestIsLast(s, j);
    }
    forall i, j | 0 <= i < j < |votes| ensures votes[i] != votes[j] {
      if votes[i].approvalName == votes[j].approvalName {
        UniqueByName(s, at[i], at[j]);
      }
    }
  }

  // ------------------------------------------------------- what approval means

  /** The vote at position j is the latest of an eligible approver. */
  predicate Decides(policy: Policy, s: seq<Approval>, j: nat) {
    j < |s| && IsGreatest(s, j) && Eligible(policy, s[j].approver.groups)
  }

  function DecidingFor(policy: Policy, s: seq<Approval>, d: Decision): set<nat> {
    set j: nat | j < |s| && Decides(policy, s, j) && s[j].decision == d
  }

  function VotesFor(policy: Policy, s: seq<Approval>, d: Decision): nat -> bool {
    (j: nat) => j < |s| && Eligible(policy, s[j].approver.groups) && s[j].decision == d
  }

  function CountedFor(d: Decision): Vote -> bool {
    (v: Vote) => v.result == VoteCounted && v.decision == d
  }

  lemma {:induction false} CountAt(policy: Policy, s: seq<Approval>, at: seq<nat>, n: nat, d: Decision)
    requires n <= |at| && forall i :: 0 <= i < |at| ==> at[i] < |s|
    ensures Count(VotesAt(policy, s, at, n), CountedFor(d)) == Count(at[..n], VotesFor(policy, s, d))
  {
    if n > 0 {
      CountAt(policy, s, at, n - 1, d);
      assert VotesAt(policy, s, at, n)[..n - 1] == VotesAt(policy, s, at, n - 1);
      assert at[..n][..n - 1] == at[..n - 1];
    }
  }

  lemma {:induction false} CountsDeciding(policy: Policy, s: seq<Approval>, d: Decision)
    requires UniqueNames(s) && SortedBy(s, Leq)
    ensures Count(AllVotes(policy, s), CountedFor(d)) == |DecidingFor(policy, s, d)|
  {
    var at := Lasts(KeysIn(s));
    VotesAreGreatest(policy, s);
    CountAt(policy, s, at, |at|, d);
    assert at[..|at|] == at;
    CountIsSize(at, VotesFor(policy, s, d));
    DecidingAt(policy, s, at, d);
  }

  lemma {:induction false} DecidingAt(policy: Policy, s: seq<Approval>, at: seq<nat>, d: Decision)
    requires forall i :: 0 <= i < |at| ==> at[i] < |s| && IsGreatest(s, at[i])
    requires forall j :: 0 <= j < |s| && IsGreatest(s, j) ==> j in at
    ensures Chosen(at, VotesFor(policy, s, d)) == DecidingFor(policy, s, d)
  {
    forall j: nat ensures j in Chosen(at, VotesFor(policy, s, d)) <==> j in DecidingFor(policy, s, d) {
      if j in at {
        var i :| 0 <= i < |at| && at[i] == j;
      }
    }
  }

  /** While voting is open and at most 64 approvers voted, a Preparation is
      approved exactly when the latest vote of no eligible approver rejects it, and
      those of as many as its policy requires approve it. */
  lemma {:induction false} ApprovedIff(prep: Preparation, approvals: seq<Approval>)
    requires UniqueNames(approvals) && prep.policy.Some? && !IsSealed(prep)
    requires |AllVotes(prep.policy.value, SortedVotes(prep, approvals))| <= MAX_APPROVERS
    ensures var policy, s := prep.policy.value, SortedVotes(prep, approvals);
            EvaluationOf(prep, approvals).approved <==>
            DecidingFor(policy, s, Reject) == {} && |DecidingFor(policy, s, Approve)| >= policy.requiredApprovals
  {
    var policy, s := prep.policy.value, SortedVotes(prep, approvals);
    SortedIsMatching(prep, approvals);
    CountsDeciding(policy, s, Approve);
    CountsDeciding(policy, s, Reject);
    SameCount(AllVotes(policy, s), Approves, CountedFor(Approve));
    SameCount(AllVotes(policy, s), Rejects, CountedFor(Reject));
  }

  lemma {:induction false} SameCount<T>(s: seq<T>, p: T -> bool, q: T -> bool)
    requires forall x :: x in s ==> p(x) == q(x)
    ensures Count(s, p) == Count(s, q)
  {
    if s != [] {
      assert s[|s| - 1] in s;
      SameCount(s[..|s| - 1], p, q);
    }
  }

  /** approved + rejected + ineligible = votes */
  lemma {:induction false} CountsAddUp(votes: seq<Vote>)
    ensures Count(votes, Approves) + Count(votes, Rejects) + Count(votes, IsIneligible) == |votes|
  {
    if votes != [] {
      CountsAddUp(votes[..|votes| - 1]);
    }
  }

  // ------------------------------------------------ superseded votes are idle

  /** The Approvals that lack in part of those in full were superseded. */
  ghost predicate LacksOnlySuperseded(prep: Preparation, full: seq<Approval>, part: seq<Approval>) {
    && (forall a :: a in part ==> a in full)
    && var s := SortedVotes(prep, full);
       forall j :: 0 <= j < |s| && IsGreatest(s, j) ==> s[j] in part
  }

  ghost predicate IsVoteOfGreatest(policy: Policy, s: seq<Approval>, v: Vote) {
    exists j :: 0 <= j < |s| && IsGreatest(s, j) && v == VoteOf(policy, s[j])
  }

  lemma {:induction false} VoteIffGreatest(policy: Policy, s: seq<Approval>, v: Vote)
    requires UniqueNames(s) && SortedBy(s, Leq)
    ensures v in AllVotes(policy, s) <==> IsVoteOfGreatest(policy, s, v)
  {
    VotesAreGreatest(policy, s);
    var at := Lasts(KeysIn(s));
    if IsVoteOfGreatest(policy, s, v) {
      var j :| 0 <= j < |s| && IsGreatest(s, j) && v == VoteOf(policy, s[j]);
      var i :| 0 <= i < |at| && at[i] == j;
      assert AllVotes(policy, s)[i] == v;
    }
  }

  lemma {:induction false} VotesOfPart(policy: Policy, s: seq<Approval>, t: seq<Approval>, v: Vote)
    requires forall a :: a in t ==> a in s
    requires forall i :: 0 <= i < |s| && IsGreatest(s, i) ==> s[i] in t
    requires UniqueNames(s) && SortedBy(s, Leq) && IsVoteOfGreatest(policy, t, v)
    ensures IsVoteOfGreatest(policy, s, v)
  {
    var k :| 0 <= k < |t| && IsGreatest(t, k) && v == VoteOf(policy, t[k]);
    assert t[k] in s;
    var j :| 0 <= j < |s| && s[j] == t[k];
    GreatestInFull(s, j, t, k);
  }

  lemma {:induction false} VotesOfFull(policy: Policy, s: seq<Approval>, t: seq<Approval>, v: Vote)
    requires forall a :: a in t ==> a in s
    requires forall i :: 0 <= i < |s| && IsGreatest(s, i) ==> s[i] in t
    requires IsVoteOfGreatest(policy, s, v)
    ensures IsVoteOfGreatest(policy, t, v)
  {
    var j :| 0 <= j < |s| && IsGreatest(s, j) && v == VoteOf(policy, s[j]);
    var k :| 0 <= k < |t| && t[k] == s[j];
    GreatestInPart(s, j, t, k);
  }

  lemma {:induction false} PartHasTheVotes(prep: Preparation, policy: Policy, full: seq<Approval>, part: seq<Approval>, v: Vote)
    requires UniqueNames(full) && UniqueNames(part) && LacksOnlySuperseded(prep, full, part)
    ensures v in AllVotes(policy, SortedVotes(prep, full)) <==> v in AllVotes(policy, SortedVotes(prep, part))
  {
    var s, t := SortedVotes(prep, full), SortedVotes(prep, part);
    SortedIsMatching(prep, full);
    SortedIsMatching(prep, part);
    VoteIffGreatest(policy, s, v);
    VoteIffGreatest(policy, t, v);
    GreatestAreIn(prep, full, part);
    if IsVoteOfGreatest(policy, s, v) {
      VotesOfFull(policy, s, t, v);
    } else if IsVoteOfGreatest(policy, t, v) {
      VotesOfPart(policy, s, t, v);
    }
  }

  lemma {:induction false} GreatestAreIn(prep: Preparation, full: seq<Approval>, part: seq<Approval>)
    requires UniqueNames(full) && UniqueNames(part) && LacksOnlySuperseded(prep, full, part)
    ensures var s, t := SortedVotes(prep, full), SortedVotes(prep, part);
            forall i :: 0 <= i < |s| && IsGreatest(s, i) ==> s[i] in t
  {
    var s, t := SortedVotes(prep, full), SortedVotes(prep, part);
    SortedIsMatching(prep, full);
    SortedIsMatching(prep, part);
    forall i | 0 <= i < |s| && IsGreatest(s, i) ensures s[i] in t {
      assert s[i] in s;
    }
  }

  lemma {:induction false} GreatestInPart(s: seq<Approval>, j: nat, t: seq<Approval>, k: nat)
    requires j < |s| && k < |t| && t[k] == s[j] && IsGreatest(s, j)
    requires forall a :: a in t ==> a in s
    ensures IsGreatest(t, k)
  {
    forall i | 0 <= i < |t| && KeysIn(t)[i] == KeysIn(t)[k] ensures Leq(t[i], t[k]) {
      assert t[i] in s;
      var l :| 0 <= l < |s| && s[l] == t[i];
      assert KeysIn(s)[l] == KeysIn(s)[j];
    }
  }

  lemma {:induction false} GreatestInFull(s: seq<Approval>, j: nat, t: seq<Approval>, k: nat)
    requires UniqueNames(s) && SortedBy(s, Leq) && j < |s| && k < |t| && t[k] == s[j] && IsGreatest(t, k)
    requires forall i :: 0 <= i < |s| && IsGreatest(s, i) ==> s[i] in t
    ensures IsGreatest(s, j)
  {
    var keys := KeysIn(s);
    var l := LastOf(keys, |s|, keys[j]);
    assert keys[j] == keys[j];
    GreatestIsLast(s, l);
    assert s[l] in t;
    var m :| 0 <= m < |t| && t[m] == s[l];
    assert KeysIn(t)[m] == KeysIn(t)[k];
    assert Leq(s[l], s[j]);
    NamesDistinguish(s);
    assert s[l] in s && s[j] in s;
    if l != j {
      assert Leq(s[j], s[l]);
      UniqueByName(s, l, j);
    }
  }

  /** Superseded votes change neither the outcome nor a count, while no more than
      64 approvers voted. */
  lemma {:induction false} SupersededAreIdle(prep: Preparation, full: seq<Approval>, part: seq<Approval>)
    requires UniqueNames(full) && UniqueNames(part) && LacksOnlySuperseded(prep, full, part)
    requires prep.policy.Some? && !IsSealed(prep)
    requires |AllVotes(prep.policy.value, SortedVotes(prep, full))| <= MAX_APPROVERS
    ensures var e, f := EvaluationOf(prep, full), EvaluationOf(prep, part);
            && e.approved == f.approved && e.reason == f.reason
            && e.status.value.approvedCount == f.status.value.approvedCount
            && e.status.value.rejectedCount == f.status.value.rejectedCount
            && e.status.value.ineligibleCount == f.status.value.ineligibleCount
            && multiset(e.status.value.votes) == multiset(f.status.value.votes)
  {
    var policy := prep.policy.value;
    var v, w := AllVotes(policy, SortedVotes(prep, full)), AllVotes(policy, SortedVotes(prep, part));
    SortedIsMatching(prep, full);
    SortedIsMatching(prep, part);
    VotesAreGreatest(policy, SortedVotes(prep, full));
    VotesAreGreatest(policy, SortedVotes(prep, part));
    forall x ensures x in v <==> x in w {
      PartHasTheVotes(prep, policy, full, part, x);
    }
    SameSets(v, w);
    SameElements(v, w);
    CountPermutes(v, w, Approves);
    CountPermutes(v, w, Rejects);
    CountPermutes(v, w, IsIneligible);
  }

  // ------------------------------------------------------ an approval approves

  /** x comes after every matching Approval. */
  predicate IsNewest(prep: Preparation, approvals: seq<Approval>, x: Approval) {
    forall i :: 0 <= i < |approvals| && Matches(prep, approvals[i]) ==> Leq(approvals[i], x)
  }

  lemma {:induction false} NewestSortsLast(prep: Preparation, approvals: seq<Approval>, x: Approval)
    requires Matches(prep, x) && IsNewest(prep, approvals, x)
    ensures SortedVotes(prep, approvals + [x]) == SortedVotes(prep, approvals) + [x]
  {
    var n, more := |approvals|, approvals + [x];
    assert more[..n] == approvals && more[n] == x;
    var m := Matching(prep, approvals);
    assert Matching(prep, more) == m + [x];
    assert (m + [x])[..|m|] == m;
    LeqIsTotal();
    SortSorts(m, Leq);
    var s := SortBy(m, Leq);
    if s != [] {
      assert s[|s| - 1] in m;
    }
  }

  lemma {:induction false} OneMoreVote(policy: Policy, s: seq<Approval>, x: Approval) returns (i: nat)
    ensures var v := AllVotes(policy, s);
            && i <= |v|
            && AllVotes(policy, s + [x]) == if i < |v| then v[i := VoteOf(policy, x)] else v + [VoteOf(policy, x)]
  {
    var at := Lasts(KeysIn(s));
    i := LastsExtend(KeysIn(s), Key(x));
    LastsAreLast(KeysIn(s));
    assert KeysIn(s + [x]) == KeysIn(s) + [Key(x)];
    if i < |at| {
      VoteReplaced(policy, s, x, at, i);
    } else {
      VoteAdded(policy, s, x, at);
    }
  }

  lemma {:induction false} VoteReplaced(policy: Policy, s: seq<Approval>, x: Approval, at: seq<nat>, i: nat)
    requires i < |at| && forall k :: 0 <= k < |at| ==> at[k] < |s|
    ensures VotesAt(policy, s + [x], at[i := |s|], |at|) == VotesAt(policy, s, at, |at|)[i := VoteOf(policy, x)]
  {
    var v, w := VotesAt(policy, s, at, |at|)[i := VoteOf(policy, x)], VotesAt(policy, s + [x], at[i := |s|], |at|);
    forall k | 0 <= k < |at| ensures w[k] == v[k] {
      assert (s + [x])[at[i := |s|][k]] == if k == i then x else s[at[k]];
    }
  }

  lemma {:induction false} VoteAdded(policy: Policy, s: seq<Approval>, x: Approval, at: seq<nat>)
    requires forall k :: 0 <= k < |at| ==> at[k] < |s|
    ensures VotesAt(policy, s + [x], at + [|s|], |at| + 1) == VotesAt(policy, s, at, |at|) + [VoteOf(policy, x)]
  {
    var v, w := VotesAt(policy, s, at, |at|) + [VoteOf(policy, x)], VotesAt(policy, s + [x], at + [|s|], |at| + 1);
    forall k | 0 <= k < |at| + 1 ensures w[k] == v[k] {
      assert (s + [x])[(at + [|s|])[k]] == if k == |at| then x else s[at[k]];
    }
  }

  /** An approval in place of the vote at position i, or after all, keeps the
      first 64 votes approving. */
  lemma {:induction false} OneApprovalMore(policy: Policy, v: seq<Vote>, i: nat, vote: Vote)
    requires i <= |v| && Approves(vote) && ApprovedUnder(policy, CutVotes(v))
    ensures ApprovedUnder(policy, CutVotes(if i < |v| then v[i := vote] else v + [vote]))
  {
    if i < |v| {
      ApprovalReplaces(policy, v, i, vote);
    } else {
      ApprovalAdds(policy, v, vote);
    }
  }

  lemma {:induction false} ApprovalReplaces(policy: Policy, v: seq<Vote>, i: nat, vote: Vote)
    requires i < |v| && Approves(vote) && ApprovedUnder(policy, CutVotes(v))
    ensures ApprovedUnder(policy, CutVotes(v[i := vote]))
  {
    var c := CutVotes(v);
    if i < |c| {
      assert CutVotes(v[i := vote]) == c[i := vote];
      CountUpdates(c, i, vote, Approves);
      CountUpdates(c, i, vote, Rejects);
    } else {
      assert CutVotes(v[i := vote]) == c;
    }
  }

  lemma {:induction false} ApprovalAdds(policy: Policy, v: seq<Vote>, vote: Vote)
    requires Approves(vote) && ApprovedUnder(policy, CutVotes(v))
    ensures ApprovedUnder(policy, CutVotes(v + [vote]))
  {
    if |v| < MAX_APPROVERS {
      assert CutVotes(v + [vote]) == v + [vote];
      assert (v + [vote])[..|v|] == v;
    } else {
      assert CutVotes(v + [vote]) == CutVotes(v);
    }
  }

  /** A newest Approve of an eligible approver, who may have voted before, never
      turns an approved Preparation into one that is not. */
  lemma {:induction false} ApproveKeepsApproved(prep: Preparation, approvals: seq<Approval>, x: Approval)
    requires prep.policy.Some? && !IsSealed(prep)
    requires Matches(prep, x) && IsNewest(prep, approvals, x)
    requires x.decision == Approve && Eligible(prep.policy.value, x.approver.groups)
    ensures EvaluationOf(prep, approvals).approved ==> EvaluationOf(prep, approvals + [x]).approved
  {
    var policy, s := prep.policy.value, SortedVotes(prep, approvals);
    NewestSortsLast(prep, approvals, x);
    var i := OneMoreVote(policy, s, x);
    if ApprovedUnder(policy, CutVotes(AllVotes(policy, s))) {
      OneApprovalMore(policy, AllVotes(policy, s), i, VoteOf(policy, x));
    }
  }
}
