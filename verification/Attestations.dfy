/** The statement that archives sealed votes: internal/approval/attestation.go. */
module Attestations {
  import opened Latest
  import opened Preparations
  import opened Sequences
  import opened Sorting
  import opened Times
  import opened Approvals
  import opened ApprovalProperties
  import opened SealingPreserves

  datatype Submission = Submission(
    name: string,
    uid: string,
    approver: Approver,
    decision: Decision,
    comment: string,
    submitted: Time,
    created: Time,
    counted: bool,
    reason: Reason)

  datatype ApprovalStatement = ApprovalStatement(
    subjectRef: string,
    subjectDigest: string,
    orderName: string,
    name: string,
    uid: string,
    policy: Policy,
    result: Reason,
    sealedTime: Time,
    submissions: seq<Submission>)

  datatype Built = Built(statement: ApprovalStatement) | WithoutPolicy | NotSealed

  // ---------------------------------------------------------- specification

  /** False for the votes that are no part of what was sealed. */
  predicate Recorded(v: Verdict) {
    v.reason != SubmittedAfterSeal && v.reason != DigestMismatch
  }

  function RecordedIn(prep: Preparation, approvals: seq<Approval>): Approval -> bool {
    (a: Approval) => Recorded(VerdictOn(prep, approvals, a))
  }

  function SubmissionOf(a: Approval, v: Verdict): Submission {
    Submission(a.name, a.uid, a.approver, a.decision, a.comment, a.submitted, Seconds(a.created), v.counted, v.reason)
  }

  /** The Approvals that are recorded, in order. */
  function RecordedOf(prep: Preparation, approvals: seq<Approval>): seq<Approval> {
    Filter(SortBy(approvals, Leq), RecordedIn(prep, approvals))
  }

  function Submitted(prep: Preparation, approvals: seq<Approval>, r: seq<Approval>): seq<Submission> {
    seq(|r|, i requires 0 <= i < |r| => SubmissionOf(r[i], VerdictOn(prep, approvals, r[i])))
  }

  function SubmissionsOf(prep: Preparation, approvals: seq<Approval>): seq<Submission> {
    Submitted(prep, approvals, RecordedOf(prep, approvals))
  }

  function BuiltOf(prep: Preparation, approvals: seq<Approval>): Built {
    if prep.policy.None? then WithoutPolicy
    else if !IsSealed(prep) then NotSealed
    else
      Built(ApprovalStatement(prep.ociRef, prep.digest, prep.orderName, prep.name, prep.uid, prep.policy.value,
                              EvaluationOf(prep, approvals).reason, Seconds(SealedStatus(prep).value.sealedTime.value),
                              SubmissionsOf(prep, approvals)))
  }

  // --------------------------------------------------------- implementation

  lemma {:induction false} HasVerdict(prep: Preparation, approvals: seq<Approval>, verdicts: map<string, Verdict>, i: nat)
    requires RightVerdicts(prep, approvals, verdicts) && i < |SortBy(approvals, Leq)|
    ensures Has(verdicts, SortBy(approvals, Leq)[i].name, VerdictOn(prep, approvals, SortBy(approvals, Leq)[i]))
  {
    LeqIsTotal();
    SortSorts(approvals, Leq);
    var a := SortBy(approvals, Leq)[i];
    assert a in SortBy(approvals, Leq) && a in approvals;
    var j :| 0 <= j < |approvals| && approvals[j] == a;
  }

  /** Builds the statement from all Approvals that name prep. */
  method BuildAttestation(prep: Preparation, approvals: seq<Approval>) returns (built: Built)
    requires UniqueNames(approvals)
    ensures built == BuiltOf(prep, approvals)
  {
    if prep.policy.None? {
      return WithoutPolicy;
    }
    if !IsSealed(prep) {
      return NotSealed;
    }
    var res, verdicts := Evaluate(prep, approvals);
    var submissions := Submissions(prep, approvals, verdicts);
    built := Built(ApprovalStatement(prep.ociRef, prep.digest, prep.orderName, prep.name, prep.uid, prep.policy.value,
                                     res.reason, Seconds(prep.status.approval.value.sealedTime.value), submissions));
  }

  method Submissions(prep: Preparation, approvals: seq<Approval>, verdicts: map<string, Verdict>) returns (submissions: seq<Submission>)
    requires UniqueNames(approvals) && RightVerdicts(prep, approvals, verdicts)
    ensures submissions == SubmissionsOf(prep, approvals)
  {
    var sorted := SortBy(approvals, Leq);
    submissions := [];
    for i := 0 to |sorted|
      invariant submissions == Submitted(prep, approvals, Filter(sorted[..i], RecordedIn(prep, approvals)))
    {
      HasVerdict(prep, approvals, verdicts, i);
      SubmitStep(prep, approvals, sorted, i);
      var v := verdicts[sorted[i].name];
      if v.reason == SubmittedAfterSeal || v.reason == DigestMismatch {
        continue;
      }
      submissions := submissions + [SubmissionOf(sorted[i], v)];
    }
    assert sorted[..|sorted|] == sorted;
  }

  lemma {:induction false} SubmitStep(prep: Preparation, approvals: seq<Approval>, sorted: seq<Approval>, i: nat)
    requires i < |sorted|
    ensures var v, p := VerdictOn(prep, approvals, sorted[i]), RecordedIn(prep, approvals);
            Submitted(prep, approvals, Filter(sorted[..i + 1], p)) ==
            Submitted(prep, approvals, Filter(sorted[..i], p)) + if Recorded(v) then [SubmissionOf(sorted[i], v)] else []
  {
    assert sorted[..i + 1][..i] == sorted[..i];
  }

  // ----------------------------------------------------------------- stability

  /** The statement does not depend on the order of the Approvals. */
  lemma {:induction false} StatementIsOrderIndependent(prep: Preparation, a: seq<Approval>, b: seq<Approval>)
    requires UniqueNames(a) && multiset(a) == multiset(b)
    ensures BuiltOf(prep, a) == BuiltOf(prep, b)
  {
    OrderIndependent(prep, a, b);
    SortsAlike(a, b);
    SameFilter(SortBy(a, Leq), RecordedIn(prep, a), RecordedIn(prep, b));
    SameSubmitted(prep, a, b, RecordedOf(prep, a));
  }

  lemma {:induction false} SameSubmitted(prep: Preparation, a: seq<Approval>, b: seq<Approval>, r: seq<Approval>)
    requires forall x :: VerdictOn(prep, a, x) == VerdictOn(prep, b, x)
    ensures Submitted(prep, a, r) == Submitted(prep, b, r)
  {
  }

  lemma {:induction false} SameFilter<T(!new)>(s: seq<T>, p: T -> bool, q: T -> bool)
    requires forall x :: p(x) == q(x)
    ensures Filter(s, p) == Filter(s, q)
  {
    if s != [] {
      SameFilter(s[..|s| - 1], p, q);
    }
  }

  /** The Approvals of the sealed votes are all in approvals, as they were there
      at the seal and Approvals are never deleted. */
  predicate HasSealed(prep: Preparation, approvals: seq<Approval>) {
    forall v :: v in VoteNames(SealedVotesOf(prep)) ==> v in NamesIn(SortedVotes(prep, approvals))
  }

  function SealedVotesOf(prep: Preparation): seq<Vote> {
    match SealedStatus(prep)
    case Some(sealed) => sealed.votes
    case None => []
  }

  lemma {:induction false} ChosenIsThere(s: seq<Approval>, l: seq<Approval>, votes: seq<Vote>, i: nat) returns (j: nat)
    requires UniqueNames(l) && (forall a :: a in s ==> a in l) && i < |l|
    requires forall v :: v in VoteNames(votes) ==> v in NamesIn(s)
    requires SealedIn(l, votes)[i]
    ensures j < |s| && s[j] == l[i] && SealedIn(s, votes)[j]
  {
    var k := LastOf(VoteNames(votes), |votes|, l[i].name);
    assert VoteNames(votes)[k] in VoteNames(votes);
    j :| 0 <= j < |s| && NamesIn(s)[j] == l[i].name;
    assert s[j] in l;
    var m :| 0 <= m < |l| && l[m] == s[j];
    UniqueByName(l, i, m);
  }

  /** Votes that come after the seal do not change which Approval is the sealed
      one of an approver. */
  lemma {:induction false} SameSealed(s: seq<Approval>, l: seq<Approval>, votes: seq<Vote>, key: ApproverKey)
    requires UniqueNames(s) && UniqueNames(l) && SortedBy(s, Leq) && SortedBy(l, Leq) && forall a :: a in s ==> a in l
    requires forall v :: v in VoteNames(votes) ==> v in NamesIn(s)
    ensures var i, j := SealedOf(s, votes, key), SealedOf(l, votes, key);
            (i < |s| <==> j < |l|) && (i < |s| ==> s[i] == l[j])
  {
    var i, j := SealedOf(s, votes, key), SealedOf(l, votes, key);
    if i < |s| {
      assert s[i] in l;
      var m :| 0 <= m < |l| && l[m] == s[i];
      assert SealedIn(l, votes)[m] && KeysIn(l)[m] == key;
      assert j < |l| && m <= j;
    }
    if j < |l| {
      var k := ChosenIsThere(s, l, votes, j);
      assert KeysIn(s)[k] == key;
      assert i < |s| && k <= i;
      SameBothWays(s, l, i, j, k);
    }
  }

  lemma {:induction false} SameBothWays(s: seq<Approval>, l: seq<Approval>, i: nat, j: nat, k: nat)
    requires UniqueNames(l) && SortedBy(s, Leq) && SortedBy(l, Leq) && k <= i < |s| && j < |l| && s[k] == l[j]
    requires exists m :: 0 <= m <= j && l[m] == s[i]
    ensures s[i] == l[j]
  {
    var m :| 0 <= m <= j && l[m] == s[i];
    if m < j && k < i {
      assert Leq(l[m], l[j]) && Leq(s[k], s[i]);
      NamesDistinguish(l);
      assert l[m] in l && l[j] in l;
    }
  }

  /** Later votes change no verdict once the votes are sealed. */
  lemma {:induction false} LaterVotesKeepVerdicts(prep: Preparation, base: seq<Approval>, later: seq<Approval>, x: Approval)
    requires prep.policy.Some? && IsSealed(prep) && HasSealed(prep, base)
    requires UniqueNames(base) && UniqueNames(later) && Includes(later, base)
    ensures VerdictOn(prep, base, x) == VerdictOn(prep, later, x)
  {
    var s, l := SortedVotes(prep, base), SortedVotes(prep, later);
    SortedIsMatching(prep, base);
    SortedIsMatching(prep, later);
    SameSealed(s, l, SealedVotesOf(prep), Key(x));
  }

  /** x comes after the sealed vote of its approver, or its approver has none. */
  predicate AfterSealed(prep: Preparation, base: seq<Approval>, x: Approval) {
    var s := SortedVotes(prep, base);
    var i := SealedOf(s, SealedVotesOf(prep), Key(x));
    i < |s| ==> Compare(x, s[i]) >= 0
  }

  /** No vote for prep was added that sorts before the sealed vote of its
      approver. */
  predicate AddedAfterSealed(prep: Preparation, base: seq<Approval>, later: seq<Approval>) {
    forall i :: 0 <= i < |later| && later[i] !in base && Matches(prep, later[i]) ==> AfterSealed(prep, base, later[i])
  }

  lemma {:induction false} AddedIsRecordedIff(prep: Preparation, base: seq<Approval>, later: seq<Approval>, x: Approval)
    requires prep.policy.Some? && IsSealed(prep) && HasSealed(prep, base)
    requires UniqueNames(base) && UniqueNames(later) && Includes(later, base)
    requires x in later && x !in base
    ensures Recorded(VerdictOn(prep, base, x)) <==> Matches(prep, x) && !AfterSealed(prep, base, x)
  {
    var s, votes := SortedVotes(prep, base), SealedVotesOf(prep);
    SortedIsMatching(prep, base);
    if VoteNamed(votes, x.name).Some? {
      var k := LastOf(VoteNames(votes), |votes|, x.name);
      assert VoteNames(votes)[k] in VoteNames(votes);
      var j :| 0 <= j < |s| && NamesIn(s)[j] == x.name;
      assert s[j] in s && s[j] in base;
      SameNameAdded(base, later, s[j], x);
    }
  }

  lemma {:induction false} SameNameAdded(base: seq<Approval>, later: seq<Approval>, a: Approval, x: Approval)
    requires UniqueNames(later) && Includes(later, base) && a in base && x in later && a.name == x.name
    ensures a == x
  {
    var i :| 0 <= i < |base| && base[i] == a;
    assert base[i] in later;
    var j :| 0 <= j < |later| && later[j] == a;
    var k :| 0 <= k < |later| && later[k] == x;
    UniqueByName(later, j, k);
  }

  lemma {:induction false} RecordedIsSorted(prep: Preparation, approvals: seq<Approval>)
    requires UniqueNames(approvals)
    ensures var r := RecordedOf(prep, approvals);
            && SortedBy(r, Leq) && NoDuplicates(r) && Distinguishes(r, Leq)
            && forall x :: x in r <==> x in approvals && Recorded(VerdictOn(prep, approvals, x))
  {
    var s, p := SortBy(approvals, Leq), RecordedIn(prep, approvals);
    LeqIsTotal();
    SortSorts(approvals, Leq);
    UniqueInPermutation(approvals, s);
    NamesDistinguish(s);
    NoDuplicateNames(s);
    FilterKeeps(s, p);
    FilterInOrder(s, Leq, p);
  }

  lemma {:induction false} NoDuplicateNames(s: seq<Approval>)
    requires UniqueNames(s)
    ensures NoDuplicates(s)
  {
    forall i, j | 0 <= i < j < |s| ensures s[i] != s[j] {
      if s[i] == s[j] {
        UniqueByName(s, i, j);
      }
    }
  }

  lemma {:induction false} SameRecorded(prep: Preparation, base: seq<Approval>, later: seq<Approval>)
    requires prep.policy.Some? && IsSealed(prep) && HasSealed(prep, base)
    requires UniqueNames(base) && UniqueNames(later) && Includes(later, base)
    requires AddedAfterSealed(prep, base, later)
    ensures RecordedOf(prep, base) == RecordedOf(prep, later)
  {
    var r, q := RecordedOf(prep, base), RecordedOf(prep, later);
    RecordedIsSorted(prep, base);
    RecordedIsSorted(prep, later);
    forall x ensures x in r <==> x in q {
      LaterVotesKeepVerdicts(prep, base, later, x);
      if x in later && x !in base {
        AddedIsRecordedIff(prep, base, later, x);
        var i :| 0 <= i < |later| && later[i] == x;
      }
    }
    SameSets(r, q);
    SortedIsUnique(r, q, Leq);
  }

  lemma {:induction false} RecordedIsSubmitted(prep: Preparation, approvals: seq<Approval>, x: Approval)
    requires UniqueNames(approvals) && x in approvals && Recorded(VerdictOn(prep, approvals, x))
    ensures exists i :: 0 <= i < |SubmissionsOf(prep, approvals)| && SubmissionsOf(prep, approvals)[i].name == x.name
  {
    RecordedIsSorted(prep, approvals);
    var r := RecordedOf(prep, approvals);
    var i :| 0 <= i < |r| && r[i] == x;
    assert SubmissionsOf(prep, approvals)[i].name == x.name;
  }

  lemma {:induction false} SubmittedWasThere(prep: Preparation, approvals: seq<Approval>, i: nat) returns (a: Approval)
    requires UniqueNames(approvals) && i < |SubmissionsOf(prep, approvals)|
    ensures a in approvals && a.name == SubmissionsOf(prep, approvals)[i].name
  {
    RecordedIsSorted(prep, approvals);
    a := RecordedOf(prep, approvals)[i];
    assert a in RecordedOf(prep, approvals);
  }

  /** Every retry builds the same statement, however many votes were cast since,
      exactly when none of them sorts before the sealed vote of its approver. */
  lemma {:induction false} StatementIsStableIff(prep: Preparation, base: seq<Approval>, later: seq<Approval>)
    requires prep.policy.Some? && IsSealed(prep) && HasSealed(prep, base)
    requires UniqueNames(base) && UniqueNames(later) && Includes(later, base)
    ensures BuiltOf(prep, later) == BuiltOf(prep, base) <==> AddedAfterSealed(prep, base, later)
  {
    if AddedAfterSealed(prep, base, later) {
      SameRecorded(prep, base, later);
      forall x ensures VerdictOn(prep, base, x) == VerdictOn(prep, later, x) {
        LaterVotesKeepVerdicts(prep, base, later, x);
      }
      SameSubmitted(prep, base, later, RecordedOf(prep, base));
    } else {
      var i :| 0 <= i < |later| && later[i] !in base && Matches(prep, later[i]) && !AfterSealed(prep, base, later[i]);
      AddedIsRecordedIff(prep, base, later, later[i]);
      LaterVotesKeepVerdicts(prep, base, later, later[i]);
      RecordedIsSubmitted(prep, later, later[i]);
      if SubmissionsOf(prep, later) == SubmissionsOf(prep, base) {
        var k :| 0 <= k < |SubmissionsOf(prep, later)| && SubmissionsOf(prep, later)[k].name == later[i].name;
        var a := SubmittedWasThere(prep, base, k);
        SameNameAdded(base, later, a, later[i]);
      }
    }
  }

  lemma {:induction false} SortedIsOfBase(prep: Preparation, base: seq<Approval>, k: nat) returns (j: nat)
    requires UniqueNames(base) && k < |SortedVotes(prep, base)|
    ensures j < |base| && base[j] == SortedVotes(prep, base)[k]
  {
    SortedIsMatching(prep, base);
    var a := SortedVotes(prep, base)[k];
    assert a in SortedVotes(prep, base) && a in base;
    j :| 0 <= j < |base| && base[j] == a;
  }

  lemma {:induction false} OneCreatedLater(prep: Preparation, base: seq<Approval>, x: Approval)
    requires UniqueNames(base) && forall j :: 0 <= j < |base| ==> base[j].created < x.created
    ensures AfterSealed(prep, base, x)
  {
    var k := SealedOf(SortedVotes(prep, base), SealedVotesOf(prep), Key(x));
    if k < |SortedVotes(prep, base)| {
      var j := SortedIsOfBase(prep, base, k);
      assert base[j].created < x.created;
    }
  }

  /** A vote cast after the votes were sealed sorts after all of them while the
      clock of the API server does not run backwards. */
  lemma {:induction false} CreatedLaterIsAfter(prep: Preparation, base: seq<Approval>, later: seq<Approval>)
    requires UniqueNames(base)
    requires forall i, j :: 0 <= i < |later| && 0 <= j < |base| && later[i] !in base ==> base[j].created < later[i].created
    ensures AddedAfterSealed(prep, base, later)
  {
    forall i | 0 <= i < |later| && later[i] !in base && Matches(prep, later[i]) ensures AfterSealed(prep, base, later[i]) {
      OneCreatedLater(prep, base, later[i]);
    }
  }
}
