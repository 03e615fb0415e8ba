/** The approval gate of a Preparation: internal/approval/evaluate.go and
    gate.go. */
module Approvals {
  import opened Options
  import opened Latest
  import opened Sequences
  import opened Sorting
  import opened Preparations

  const MAX_APPROVERS := 64
  const MAX_INT32 := 0x7FFF_FFFF

  datatype Reason =
    | ApprovalNotRequired | DigestMismatch | Superseded | Counted | NotEligible | SubmittedAfterSeal
    | ChangesRequested | Approved | AwaitingApprovals | SealingApprovals

  /** How one Approval is evaluated; superseder names the one that supersedes it. */
  datatype Verdict = Verdict(counted: bool, reason: Reason, superseder: string)

  datatype Message =
    | NoPolicy
    | ChangesRequestedBy(names: seq<string>)
    | ApprovedBy(count: nat, required: nat, names: seq<string>)
    | Awaiting(count: nat, required: nat)

  datatype Evaluation = Evaluation(
    required: bool,
    approved: bool,
    reason: Reason,
    message: Message,
    status: Option<ApprovalStatus>)

  // ------------------------------------------------------------------- order

  /** Creation time, then submission time, then name. */
  function Compare(a: Approval, b: Approval): int {
    if a.created != b.created then (if a.created < b.created then -1 else 1)
    else if a.submitted != b.submitted then (if a.submitted < b.submitted then -1 else 1)
    else CompareStrings(a.name, b.name)
  }

  predicate Leq(a: Approval, b: Approval) { Compare(a, b) <= 0 }

  /** Who cast a vote. The source joins the two into one string (EncodedKey). */
  datatype ApproverKey = ApproverKey(issuer: string, subject: string)

  function Key(a: Approval): ApproverKey {
    ApproverKey(a.approver.issuer, a.approver.subject)
  }

  function EncodedKey(k: ApproverKey): string {
    k.issuer + "\0" + k.subject
  }

  /** The joined string stands for exactly one approver, as no issuer holds the
      separator. */
  lemma {:induction false} EncodedKeyIdentifies(k: ApproverKey, l: ApproverKey)
    requires '\0' !in k.issuer && '\0' !in l.issuer
    ensures EncodedKey(k) == EncodedKey(l) <==> k == l
    decreases k.issuer
  {
    var a, b := EncodedKey(k), EncodedKey(l);
    if a == b {
      assert a[0] == b[0];
      assert a[1..] == b[1..];
      if k.issuer == [] || l.issuer == [] {
        assert a[|k.issuer|] == '\0' && b[|l.issuer|] == '\0';
        assert k.issuer == [] && l.issuer == [];
        assert a[1..] == k.subject && b[1..] == l.subject;
      } else {
        var k', l' := k.(issuer := k.issuer[1..]), l.(issuer := l.issuer[1..]);
        assert a[1..] == EncodedKey(k') && b[1..] == EncodedKey(l');
        EncodedKeyIdentifies(k', l');
        assert k.issuer == [k.issuer[0]] + k.issuer[1..] && l.issuer == [l.issuer[0]] + l.issuer[1..];
      }
    }
  }

  function NamesIn(s: seq<Approval>): (r: seq<string>)
    ensures |r| == |s|
  {
    seq(|s|, i requires 0 <= i < |s| => s[i].name)
  }

  function KeysIn(s: seq<Approval>): (r: seq<ApproverKey>)
    ensures |r| == |s|
  {
    seq(|s|, i requires 0 <= i < |s| => Key(s[i]))
  }

  /** As they are within a namespace. */
  predicate UniqueNames(s: seq<Approval>) { Unique(NamesIn(s)) }

  // ---------------------------------------------------------- specification

  predicate Matches(prep: Preparation, a: Approval) {
    a.preparationUID == prep.uid && a.artifactDigest == prep.digest
  }

  function Matching(prep: Preparation, s: seq<Approval>): (r: seq<Approval>)
    ensures forall a :: a in r <==> a in s && Matches(prep, a)
  {
    if s == [] then []
    else
      var front := Matching(prep, s[..|s| - 1]);
      if Matches(prep, s[|s| - 1]) then front + [s[|s| - 1]] else front
  }

  /** The matching Approvals from the earliest to the latest. */
  function SortedVotes(prep: Preparation, s: seq<Approval>): seq<Approval> {
    SortBy(Matching(prep, s), Leq)
  }

  predicate Eligible(policy: Policy, groups: seq<string>) {
    exists g :: g in groups && g in policy.allowedGroups
  }

  function VoteOf(policy: Policy, a: Approval): Vote {
    Vote(a.name, a.approver.issuer, a.approver.subject, a.approver.username, a.decision,
         if Eligible(policy, a.approver.groups) then VoteCounted else VoteNotEligible, a.submitted)
  }

  /** The first n of the votes at the positions at. */
  function VotesAt(policy: Policy, s: seq<Approval>, at: seq<nat>, n: nat): (votes: seq<Vote>)
    requires n <= |at| && forall i :: 0 <= i < n ==> at[i] < |s|
    ensures |votes| == n
  {
    seq(n, i requires 0 <= i < n => VoteOf(policy, s[at[i]]))
  }

  /** The latest vote of each approver, of the approver who voted first first. */
  function AllVotes(policy: Policy, s: seq<Approval>): seq<Vote> {
    var at := Lasts(KeysIn(s));
    LastsAreLast(KeysIn(s));
    VotesAt(policy, s, at, |at|)
  }

  function CutVotes(votes: seq<Vote>): seq<Vote> {
    if |votes| > MAX_APPROVERS then votes[..MAX_APPROVERS] else votes
  }

  function OpenVotes(policy: Policy, s: seq<Approval>): seq<Vote> {
    CutVotes(AllVotes(policy, s))
  }

  function EligibilityVerdict(counted: bool): Verdict {
    Verdict(counted, if counted then Counted else NotEligible, "")
  }

  function SupersededBy(name: string): Verdict {
    Verdict(false, Superseded, name)
  }

  /** The verdict on the latest vote of an approver, by its position. */
  function LatestVerdict(policy: Policy, s: seq<Approval>): nat -> Verdict {
    (j: nat) => EligibilityVerdict(j < |s| && Eligible(policy, s[j].approver.groups))
  }

  /** The verdict on the vote at position j while voting is open. */
  function OpenVerdict(policy: Policy, s: seq<Approval>, j: nat): Verdict
    requires j < |s|
  {
    VerdictAt(KeysIn(s), NamesIn(s), SupersededBy, LatestVerdict(policy, s), j)
  }

  function VoteNames(votes: seq<Vote>): (r: seq<string>)
    ensures |r| == |votes|
  {
    seq(|votes|, i requires 0 <= i < |votes| => votes[i].approvalName)
  }

  /** The sealed vote that names the Approval name. */
  function VoteNamed(votes: seq<Vote>, name: string): (r: Option<Vote>)
  {
    var i := LastOf(VoteNames(votes), |votes|, name);
    if i < |votes| then Some(votes[i]) else None
  }

  /** Which of s were sealed. */
  function SealedIn(s: seq<Approval>, votes: seq<Vote>): (r: seq<bool>)
    ensures |r| == |s|
  {
    seq(|s|, i requires 0 <= i < |s| => VoteNamed(votes, s[i].name).Some?)
  }

  /** The position of the last Approval of key that was sealed, |s| when there
      is none. */
  function SealedOf(s: seq<Approval>, votes: seq<Vote>, key: ApproverKey): (i: nat)
    ensures i <= |s|
  {
    LastChosen(KeysIn(s), SealedIn(s, votes), |s|, key)
  }

  /** The verdict on a once votes are sealed. */
  function SealedVerdict(s: seq<Approval>, votes: seq<Vote>, a: Approval): Verdict {
    var vote, i := VoteNamed(votes, a.name), SealedOf(s, votes, Key(a));
    if vote.Some? then EligibilityVerdict(vote.value.result == VoteCounted)
    else if i < |s| && Compare(a, s[i]) < 0 then SupersededBy(s[i].name)
    else Verdict(false, SubmittedAfterSeal, "")
  }

  function DisplayName(v: Vote): string {
    if v.username != "" then v.username else v.subject
  }

  predicate Approves(v: Vote) { v.result == VoteCounted && v.decision == Approve }
  predicate Rejects(v: Vote) { v.result == VoteCounted && v.decision == Reject }
  predicate IsIneligible(v: Vote) { v.result != VoteCounted }

  /** Who cast the votes that p holds of. */
  function NamesOf(votes: seq<Vote>, p: Vote -> bool): seq<string> {
    if votes == [] then []
    else NamesOf(votes[..|votes| - 1], p) + if p(votes[|votes| - 1]) then [DisplayName(votes[|votes| - 1])] else []
  }

  function SealedStatus(prep: Preparation): Option<ApprovalStatus> {
    match prep.status.approval
    case Some(a) => if a.sealedTime.Some? then Some(a) else None
    case None => None
  }

  predicate IsSealed(prep: Preparation) { SealedStatus(prep).Some? }

  /** The votes that decide: the sealed ones, or the latest of each approver. */
  function DecidingVotes(prep: Preparation, approvals: seq<Approval>): seq<Vote>
    requires prep.policy.Some?
  {
    match SealedStatus(prep)
    case Some(sealed) => sealed.votes
    case None => OpenVotes(prep.policy.value, SortedVotes(prep, approvals))
  }

  function StatusOf(prep: Preparation, approvals: seq<Approval>): ApprovalStatus
    requires prep.policy.Some?
  {
    var votes, sealed := DecidingVotes(prep, approvals), SealedStatus(prep);
    ApprovalStatus(prep.policy.value.requiredApprovals,
                   Count(votes, Approves), Count(votes, Rejects), Count(votes, IsIneligible),
                   if |approvals| < MAX_INT32 then |approvals| else MAX_INT32, votes,
                   if sealed.Some? then sealed.value.sealedTime else None,
                   if sealed.Some? then sealed.value.attestation else None)
  }

  /** The outcome of votes under policy: a counted Reject vetoes. */
  predicate ApprovedUnder(policy: Policy, votes: seq<Vote>) {
    Count(votes, Rejects) == 0 && Count(votes, Approves) >= policy.requiredApprovals
  }

  function ReasonOf(policy: Policy, votes: seq<Vote>): Reason {
    if Count(votes, Rejects) > 0 then ChangesRequested
    else if ApprovedUnder(policy, votes) then Approved
    else AwaitingApprovals
  }

  function MessageOf(policy: Policy, votes: seq<Vote>): Message {
    match ReasonOf(policy, votes)
    case ChangesRequested => ChangesRequestedBy(NamesOf(votes, Rejects))
    case Approved => ApprovedBy(Count(votes, Approves), policy.requiredApprovals, NamesOf(votes, Approves))
    case _ => Awaiting(Count(votes, Approves), policy.requiredApprovals)
  }

  /** What Evaluate decides. */
  function EvaluationOf(prep: Preparation, approvals: seq<Approval>): Evaluation {
    if prep.policy.None? then Evaluation(false, true, ApprovalNotRequired, NoPolicy, None)
    else
      var policy, votes := prep.policy.value, DecidingVotes(prep, approvals);
      Evaluation(true, ApprovedUnder(policy, votes), ReasonOf(policy, votes), MessageOf(policy, votes), Some(StatusOf(prep, approvals)))
  }

  /** The verdict on a of the Approvals. */
  function VerdictOn(prep: Preparation, approvals: seq<Approval>, a: Approval): Verdict {
    if prep.policy.None? then Verdict(false, ApprovalNotRequired, "")
    else if !Matches(prep, a) then Verdict(false, DigestMismatch, "")
    else
      var s := SortedVotes(prep, approvals);
      var j := LastOf(NamesIn(s), |s|, a.name);
      match SealedStatus(prep)
      case Some(sealed) => SealedVerdict(s, sealed.votes, a)
      case None => if j < |s| then OpenVerdict(prep.policy.value, s, j) else Verdict(false, DigestMismatch, "")
  }

  // ------------------------------------------------------- facts on the order

  lemma {:induction false} LeqIsTotal()
    ensures TotalPreorder(Leq)
  {
    forall x, y ensures Leq(x, y) || Leq(y, x) {
      CompareReverses(x.name, y.name);
    }
    forall x, y, z | Leq(x, y) && Leq(y, z) ensures Leq(x, z) {
      if x.created == y.created == z.created && x.submitted == y.submitted == z.submitted {
        CompareIsTransitive(x.name, y.name, z.name);
      }
    }
  }

  lemma {:induction false} UniqueByName(s: seq<Approval>, i: nat, j: nat)
    requires UniqueNames(s) && i < |s| && j < |s| && s[i].name == s[j].name
    ensures i == j
  {
    assert NamesIn(s)[i] == NamesIn(s)[j];
  }

  lemma {:induction false} OccursOnce(s: seq<Approval>, i: nat)
    requires UniqueNames(s) && i < |s|
    ensures multiset(s)[s[i]] == 1
  {
    var before, after := s[..i], s[i + 1..];
    assert s == before + [s[i]] + after;
    if s[i] in before {
      var j :| 0 <= j < i && before[j] == s[i];
      UniqueByName(s, i, j);
    }
    if s[i] in after {
      var j :| 0 <= j < |after| && after[j] == s[i];
      UniqueByName(s, i, i + 1 + j);
    }
  }

  lemma {:induction false} OccursTwice(t: seq<Approval>, i: nat, j: nat)
    requires i < j < |t| && t[i] == t[j]
    ensures multiset(t)[t[i]] >= 2
  {
    var front := t[..j];
    assert t == front + [t[j]] + t[j + 1..];
    assert front[i] in multiset(front);
  }

  /** Names are unique in any permutation. */
  lemma {:induction false} UniqueInPermutation(s: seq<Approval>, t: seq<Approval>)
    requires multiset(s) == multiset(t) && UniqueNames(s)
    ensures UniqueNames(t)
  {
    SameElements(s, t);
    forall i, j | 0 <= i < j < |t| ensures NamesIn(t)[i] != NamesIn(t)[j] {
      if NamesIn(t)[i] == NamesIn(t)[j] {
        SameNameIsSame(s, t, i, j);
        OccursTwice(t, i, j);
      }
    }
  }

  lemma {:induction false} SameNameIsSame(s: seq<Approval>, t: seq<Approval>, i: nat, j: nat)
    requires UniqueNames(s) && i < |t| && j < |t| && t[i].name == t[j].name && t[i] in s && t[j] in s
    ensures t[i] == t[j] && multiset(s)[t[i]] == 1
  {
    var k :| 0 <= k < |s| && s[k] == t[i];
    var l :| 0 <= l < |s| && s[l] == t[j];
    UniqueByName(s, k, l);
    OccursOnce(s, k);
  }

  lemma {:induction false} MatchingIsUnique(prep: Preparation, s: seq<Approval>)
    requires UniqueNames(s)
    ensures UniqueNames(Matching(prep, s))
  {
    if s != [] {
      var n := |s| - 1;
      assert NamesIn(s[..n]) == NamesIn(s)[..n];
      MatchingIsUnique(prep, s[..n]);
      if Matches(prep, s[n]) {
        MatchingLeavesOut(prep, s, n);
        var front := Matching(prep, s[..n]);
        assert NamesIn(Matching(prep, s)) == NamesIn(front) + [s[n].name];
      }
    }
  }

  lemma {:induction false} MatchingLeavesOut(prep: Preparation, s: seq<Approval>, n: nat)
    requires UniqueNames(s) && n < |s|
    ensures forall i :: 0 <= i < |Matching(prep, s[..n])| ==> NamesIn(Matching(prep, s[..n]))[i] != s[n].name
  {
    var front := Matching(prep, s[..n]);
    forall i | 0 <= i < |front| ensures NamesIn(front)[i] != s[n].name {
      assert front[i] in s[..n];
      var j :| 0 <= j < n && s[j] == front[i];
      if s[j].name == s[n].name {
        UniqueByName(s, j, n);
      }
    }
  }

  lemma {:induction false} SortedIsMatching(prep: Preparation, s: seq<Approval>)
    requires UniqueNames(s)
    ensures var r := SortedVotes(prep, s);
            && UniqueNames(r) && SortedBy(r, Leq)
            && (forall a :: a in r <==> a in s && Matches(prep, a))
            && multiset(r) == multiset(Matching(prep, s))
  {
    LeqIsTotal();
    MatchingIsUnique(prep, s);
    SortSorts(Matching(prep, s), Leq);
    UniqueInPermutation(Matching(prep, s), SortedVotes(prep, s));
  }

  // --------------------------------------------------------- implementation

  /** Open verdicts by position. */
  function OpenVerdicts(policy: Policy, s: seq<Approval>): nat -> Verdict {
    (j: nat) => if j < |s| then OpenVerdict(policy, s, j) else SupersededBy("")
  }

  /** Picks the latest vote of each approver, and sets the verdict on each. */
  method EvaluateOpen(policy: Policy, sorted: seq<Approval>, given: map<string, Verdict>)
    returns (votes: seq<Vote>, verdicts: map<string, Verdict>)
    requires UniqueNames(sorted)
    ensures votes == OpenVotes(policy, sorted)
    ensures SetUpTo(NamesIn(sorted), OpenVerdicts(policy, sorted), |sorted|, given, verdicts)
  {
    ghost var keys, names := KeysIn(sorted), NamesIn(sorted);
    verdicts := given;
    var latest: map<ApproverKey, nat>, order: seq<ApproverKey> := map[], [];
    for i := 0 to |sorted|
      invariant IsLatest(keys, i, latest)
      invariant order == Distinct(keys, i)
      invariant verdicts == FollowedOf(keys, names, SupersededBy, i, given)
    {
      var a := sorted[i];
      var key := Key(a);
      assert names[i] == a.name && keys[i] == key;
      TableStep(keys, names, SupersededBy, i, latest, given);
      if key in latest {
        assert names[latest[key]] == sorted[latest[key]].name;
        verdicts := verdicts[sorted[latest[key]].name := SupersededBy(a.name)];
      } else {
        order := order + [key];
      }
      latest := latest[key := i];
    }
    LatestAreLasts(keys, latest);
    votes, verdicts := DecideLatest(policy, sorted, latest, order, verdicts);
    OpenIsRight(policy, sorted, given);
    if |votes| > MAX_APPROVERS {
      votes := votes[..MAX_APPROVERS];
    }
  }

  /** latest maps every key of order to the last position of the key. */
  ghost predicate MapsToLasts(keys: seq<ApproverKey>, latest: map<ApproverKey, nat>, order: seq<ApproverKey>) {
    && |Lasts(keys)| == |order|
    && forall i :: 0 <= i < |order| ==> order[i] in latest && latest[order[i]] == Lasts(keys)[i] < |keys|
  }

  lemma {:induction false} LatestAreLasts(keys: seq<ApproverKey>, latest: map<ApproverKey, nat>)
    requires IsLatest(keys, |keys|, latest)
    ensures MapsToLasts(keys, latest, Distinct(keys, |keys|))
  {
    DistinctCovers(keys, |keys|);
    var order := Distinct(keys, |keys|);
    forall i | 0 <= i < |order| ensures order[i] in latest && latest[order[i]] == Lasts(keys)[i] < |keys| {
      assert order[i] in order;
    }
  }

  method DecideLatest(policy: Policy, sorted: seq<Approval>, latest: map<ApproverKey, nat>, order: seq<ApproverKey>, given: map<string, Verdict>)
    returns (votes: seq<Vote>, verdicts: map<string, Verdict>)
    requires MapsToLasts(KeysIn(sorted), latest, order)
    ensures forall i :: 0 <= i < |order| ==> Lasts(KeysIn(sorted))[i] < |sorted|
    ensures votes == AllVotes(policy, sorted)
    ensures verdicts == DecidedOf(NamesIn(sorted), Lasts(KeysIn(sorted)), LatestVerdict(policy, sorted), |order|, given)
  {
    ghost var at := Lasts(KeysIn(sorted));
    votes, verdicts := [], given;
    for i := 0 to |order|
      invariant votes == VotesAt(policy, sorted, at, i)
      invariant verdicts == DecidedOf(NamesIn(sorted), at, LatestVerdict(policy, sorted), i, given)
    {
      var a := sorted[latest[order[i]]];
      DecideOne(policy, sorted, at, i, given);
      var vote, verdict := Decide(policy, a);
      verdicts := verdicts[a.name := verdict];
      votes := votes + [vote];
    }
  }

  lemma {:induction false} DecideOne(policy: Policy, s: seq<Approval>, at: seq<nat>, i: nat, given: map<string, Verdict>)
    requires i < |at| && forall k :: 0 <= k < |at| ==> at[k] < |s|
    ensures var own := LatestVerdict(policy, s);
            DecidedOf(NamesIn(s), at, own, i + 1, given) ==
            DecidedOf(NamesIn(s), at, own, i, given)[s[at[i]].name := EligibilityVerdict(Eligible(policy, s[at[i]].approver.groups))]
    ensures VotesAt(policy, s, at, i + 1) == VotesAt(policy, s, at, i) + [VoteOf(policy, s[at[i]])]
  {
  }

  method Decide(policy: Policy, a: Approval) returns (vote: Vote, verdict: Verdict)
    ensures vote == VoteOf(policy, a)
    ensures verdict == EligibilityVerdict(Eligible(policy, a.approver.groups))
  {
    var result := VoteCounted;
    verdict := Verdict(true, Counted, "");
    if !Eligible(policy, a.approver.groups) {
      result := VoteNotEligible;
      verdict := Verdict(false, NotEligible, "");
    }
    vote := Vote(a.name, a.approver.issuer, a.approver.subject, a.approver.username, a.decision, result, a.submitted);
  }

  /** What the loops of EvaluateOpen leave is the specification. */
  lemma {:induction false} OpenIsRight(policy: Policy, s: seq<Approval>, given: map<string, Verdict>)
    requires UniqueNames(s)
    ensures var keys, names, at := KeysIn(s), NamesIn(s), Lasts(KeysIn(s));
            && (forall i :: 0 <= i < |at| ==> at[i] < |s|)
            && var v := DecidedOf(names, at, LatestVerdict(policy, s), |at|, FollowedOf(keys, names, SupersededBy, |s|, given));
            SetUpTo(names, OpenVerdicts(policy, s), |s|, given, v)
  {
    TableIsRight(KeysIn(s), NamesIn(s), SupersededBy, LatestVerdict(policy, s), given);
  }

  /** Sealed verdicts by position. */
  function SealedVerdicts(s: seq<Approval>, votes: seq<Vote>): nat -> Verdict {
    (j: nat) => if j < |s| then SealedVerdict(s, votes, s[j]) else SupersededBy("")
  }

  /** The positions of the sealed votes by name, and of the last sealed Approval
      of each approver. */
  method IndexSealed(sorted: seq<Approval>, votes: seq<Vote>)
    returns (sealedByName: map<string, nat>, sealedByKey: map<ApproverKey, nat>)
    ensures IsLatest(VoteNames(votes), |votes|, sealedByName)
    ensures IsLatestChosen(KeysIn(sorted), SealedIn(sorted, votes), |sorted|, sealedByKey)
  {
    ghost var names := VoteNames(votes);
    sealedByName := map[];
    for i := 0 to |votes|
      invariant IsLatest(names, i, sealedByName)
    {
      LatestStep(names, i, sealedByName);
      assert names[i] == votes[i].approvalName;
      sealedByName := sealedByName[votes[i].approvalName := i];
    }

    ghost var keys, chosen := KeysIn(sorted), SealedIn(sorted, votes);
    sealedByKey := map[];
    for i := 0 to |sorted|
      invariant IsLatestChosen(keys, chosen, i, sealedByKey)
    {
      var a := sorted[i];
      LatestChosenStep(keys, chosen, i, sealedByKey);
      assert keys[i] == Key(a) && chosen[i] == (a.name in sealedByName);
      if a.name in sealedByName {
        sealedByKey := sealedByKey[Key(a) := i];
      }
    }
  }

  /** Classifies Approvals against the sealed votes. */
  method EvaluateSealed(sorted: seq<Approval>, votes: seq<Vote>, given: map<string, Verdict>) returns (verdicts: map<string, Verdict>)
    requires UniqueNames(sorted)
    ensures SetUpTo(NamesIn(sorted), SealedVerdicts(sorted, votes), |sorted|, given, verdicts)
  {
    ghost var names, verdict := NamesIn(sorted), SealedVerdicts(sorted, votes);
    var sealedByName, sealedByKey := IndexSealed(sorted, votes);
    verdicts := given;
    for i := 0 to |sorted|
      invariant SetUpTo(names, verdict, i, given, verdicts)
    {
      var a := sorted[i];
      SetStep(names, verdict, i, given, verdicts);
      assert names[i] == a.name;
      var v := Classify(sorted, votes, sealedByName, sealedByKey, a);
      verdicts := verdicts[a.name := v];
    }
  }

  method Classify(sorted: seq<Approval>, votes: seq<Vote>, sealedByName: map<string, nat>, sealedByKey: map<ApproverKey, nat>, a: Approval)
    returns (v: Verdict)
    requires IsLatest(VoteNames(votes), |votes|, sealedByName)
    requires IsLatestChosen(KeysIn(sorted), SealedIn(sorted, votes), |sorted|, sealedByKey)
    ensures v == SealedVerdict(sorted, votes, a)
  {
    var key := Key(a);
    if a.name in sealedByName {
      if votes[sealedByName[a.name]].result == VoteCounted {
        return Verdict(true, Counted, "");
      }
      return Verdict(false, NotEligible, "");
    }
    if key in sealedByKey {
      var s := sorted[sealedByKey[key]];
      if Compare(a, s) < 0 {
        return Verdict(false, Superseded, s.name);
      }
    }
    v := Verdict(false, SubmittedAfterSeal, "");
  }

  /** The verdicts are exactly those on the Approvals. */
  ghost predicate RightVerdicts(prep: Preparation, approvals: seq<Approval>, verdicts: map<string, Verdict>) {
    && (forall i :: 0 <= i < |approvals| ==> Has(verdicts, approvals[i].name, VerdictOn(prep, approvals, approvals[i])))
    && (forall n :: n in verdicts ==> n in NamesIn(approvals))
  }

  /** The approval gate of prep, from the Approvals that name it. */
  method Evaluate(prep: Preparation, approvals: seq<Approval>) returns (res: Evaluation, verdicts: map<string, Verdict>)
    requires UniqueNames(approvals)
    ensures res == EvaluationOf(prep, approvals)
    ensures RightVerdicts(prep, approvals, verdicts)
  {
    if prep.policy.None? {
      verdicts := NotRequired(prep, approvals);
      return Evaluation(false, true, ApprovalNotRequired, NoPolicy, None), verdicts;
    }
    var policy := prep.policy.value;
    var submissions := if |approvals| < MAX_INT32 then |approvals| else MAX_INT32;
    var sealedTime, attestation := None, None;
    if IsSealed(prep) {
      sealedTime, attestation := prep.status.approval.value.sealedTime, prep.status.approval.value.attestation;
    }
    var votes;
    votes, verdicts := EvaluateVotes(prep, approvals);
    var approved, rejected, ineligible, approvedBy, rejectedBy := Tally(votes);
    var status := ApprovalStatus(policy.requiredApprovals, approved, rejected, ineligible, submissions, votes, sealedTime, attestation);
    if rejected > 0 {
      res := Evaluation(true, false, ChangesRequested, ChangesRequestedBy(rejectedBy), Some(status));
    } else if approved >= policy.requiredApprovals {
      res := Evaluation(true, true, Approved, ApprovedBy(approved, policy.requiredApprovals, approvedBy), Some(status));
    } else {
      res := Evaluation(true, false, AwaitingApprovals, Awaiting(approved, policy.requiredApprovals), Some(status));
    }
  }

  /** The votes that decide, and the verdict on every Approval. */
  method EvaluateVotes(prep: Preparation, approvals: seq<Approval>) returns (votes: seq<Vote>, verdicts: map<string, Verdict>)
    requires UniqueNames(approvals) && prep.policy.Some?
    ensures votes == DecidingVotes(prep, approvals)
    ensures RightVerdicts(prep, approvals, verdicts)
  {
    var sorted, given := SortMatching(prep, approvals);
    SortedIsMatching(prep, approvals);
    if IsSealed(prep) {
      votes := prep.status.approval.value.votes;
      verdicts := EvaluateSealed(sorted, votes, given);
      SealedAreRight(prep, approvals, given, verdicts);
    } else {
      votes, verdicts := EvaluateOpen(prep.policy.value, sorted, given);
      OpenAreRight(prep, approvals, given, verdicts);
    }
  }

  method NotRequired(prep: Preparation, approvals: seq<Approval>) returns (verdicts: map<string, Verdict>)
    requires prep.policy.None? && UniqueNames(approvals)
    ensures RightVerdicts(prep, approvals, verdicts)
  {
    ghost var names, verdict := NamesIn(approvals), (j: nat) => Verdict(false, ApprovalNotRequired, "");
    verdicts := map[];
    for i := 0 to |approvals|
      invariant SetUpTo(names, verdict, i, map[], verdicts)
    {
      SetStep(names, verdict, i, map[], verdicts);
      assert names[i] == approvals[i].name;
      verdicts := verdicts[approvals[i].name := Verdict(false, ApprovalNotRequired, "")];
    }
    forall i | 0 <= i < |approvals| ensures Has(verdicts, approvals[i].name, VerdictOn(prep, approvals, approvals[i])) {
      assert Has(verdicts, names[i], verdict(i));
    }
  }

  /** Every one of the first n Approvals that does not match has its verdict, and
      no other Approval has one. */
  ghost predicate Mismatched(prep: Preparation, approvals: seq<Approval>, n: nat, verdicts: map<string, Verdict>)
    requires n <= |approvals|
  {
    && (forall i :: 0 <= i < n && !Matches(prep, approvals[i]) ==> Has(verdicts, NamesIn(approvals)[i], Verdict(false, DigestMismatch, "")))
    && (forall m :: m in verdicts ==> m in NamesIn(approvals))
  }

  /** The matching Approvals in order, and the verdicts on the others. */
  method SortMatching(prep: Preparation, approvals: seq<Approval>) returns (sorted: seq<Approval>, verdicts: map<string, Verdict>)
    ensures sorted == SortedVotes(prep, approvals)
    ensures Mismatched(prep, approvals, |approvals|, verdicts)
  {
    var matching := [];
    verdicts := map[];
    for i := 0 to |approvals|
      invariant matching == Matching(prep, approvals[..i])
      invariant Mismatched(prep, approvals, i, verdicts)
    {
      assert approvals[..i + 1][..i] == approvals[..i];
      var a := approvals[i];
      if a.preparationUID != prep.uid || a.artifactDigest != prep.digest {
        assert a.name == NamesIn(approvals)[i];
        verdicts := verdicts[a.name := Verdict(false, DigestMismatch, "")];
        continue;
      }
      matching := matching + [a];
    }
    assert approvals[..|approvals|] == approvals;
    sorted := SortBy(matching, Leq);
  }

  method Tally(votes: seq<Vote>)
    returns (approved: nat, rejected: nat, ineligible: nat, approvedBy: seq<string>, rejectedBy: seq<string>)
    ensures approved == Count(votes, Approves) && rejected == Count(votes, Rejects) && ineligible == Count(votes, IsIneligible)
    ensures approvedBy == NamesOf(votes, Approves) && rejectedBy == NamesOf(votes, Rejects)
  {
    approved, rejected, ineligible, approvedBy, rejectedBy := 0, 0, 0, [], [];
    for i := 0 to |votes|
      invariant approved == Count(votes[..i], Approves)
      invariant rejected == Count(votes[..i], Rejects)
      invariant ineligible == Count(votes[..i], IsIneligible)
      invariant approvedBy == NamesOf(votes[..i], Approves)
      invariant rejectedBy == NamesOf(votes[..i], Rejects)
    {
      assert votes[..i + 1][..i] == votes[..i];
      var v := votes[i];
      if v.result != VoteCounted {
        ineligible := ineligible + 1;
        continue;
      }
      match v.decision
      case Approve =>
        approved := approved + 1;
        approvedBy := approvedBy + [DisplayName(v)];
      case Reject =>
        rejected := rejected + 1;
        rejectedBy := rejectedBy + [DisplayName(v)];
    }
    assert votes[..|votes|] == votes;
  }

  // ------------------------------------------------- the verdicts of Evaluate

  lemma {:induction false} MatchingIsRight(prep: Preparation, approvals: seq<Approval>, verdict: nat -> Verdict, given: map<string, Verdict>,
                                           verdicts: map<string, Verdict>, i: nat)
    requires UniqueNames(approvals) && i < |approvals| && Matches(prep, approvals[i])
    requires var s := SortedVotes(prep, approvals);
             && SetUpTo(NamesIn(s), verdict, |s|, given, verdicts)
             && forall j :: 0 <= j < |s| ==> verdict(j) == VerdictOn(prep, approvals, s[j])
    ensures Has(verdicts, approvals[i].name, VerdictOn(prep, approvals, approvals[i]))
  {
    var s := SortedVotes(prep, approvals);
    SortedIsMatching(prep, approvals);
    assert approvals[i] in s;
    var j :| 0 <= j < |s| && s[j] == approvals[i];
    assert Has(verdicts, NamesIn(s)[j], verdict(j));
  }

  /** The verdicts set on the matching Approvals and the others together. */
  lemma {:induction false} AreRight(prep: Preparation, approvals: seq<Approval>, given: map<string, Verdict>, verdict: nat -> Verdict, verdicts: map<string, Verdict>)
    requires UniqueNames(approvals) && prep.policy.Some?
    requires Mismatched(prep, approvals, |approvals|, given)
    requires var s := SortedVotes(prep, approvals);
             && SetUpTo(NamesIn(s), verdict, |s|, given, verdicts)
             && forall j :: 0 <= j < |s| ==> verdict(j) == VerdictOn(prep, approvals, s[j])
    ensures RightVerdicts(prep, approvals, verdicts)
  {
    var s := SortedVotes(prep, approvals);
    SortedIsMatching(prep, approvals);
    forall i | 0 <= i < |approvals| ensures Has(verdicts, approvals[i].name, VerdictOn(prep, approvals, approvals[i])) {
      if Matches(prep, approvals[i]) {
        MatchingIsRight(prep, approvals, verdict, given, verdicts, i);
      } else {
        NotAmong(prep, approvals, s, i);
        assert Has(given, NamesIn(approvals)[i], Verdict(false, DigestMismatch, ""));
      }
    }
    NamesAmong(s, approvals);
  }

  lemma {:induction false} NamesAmong(s: seq<Approval>, approvals: seq<Approval>)
    requires forall a :: a in s ==> a in approvals
    ensures forall m :: m in NamesIn(s) ==> m in NamesIn(approvals)
  {
    forall m | m in NamesIn(s) ensures m in NamesIn(approvals) {
      var j :| 0 <= j < |s| && NamesIn(s)[j] == m;
      assert s[j] in approvals;
      var i :| 0 <= i < |approvals| && approvals[i] == s[j];
      assert NamesIn(approvals)[i] == m;
    }
  }

  /** No matching Approval has the name of one that does not match. */
  lemma {:induction false} NotAmong(prep: Preparation, approvals: seq<Approval>, s: seq<Approval>, i: nat)
    requires UniqueNames(approvals) && i < |approvals| && !Matches(prep, approvals[i])
    requires forall a :: a in s ==> a in approvals && Matches(prep, a)
    ensures approvals[i].name !in NamesIn(s)
  {
    if approvals[i].name in NamesIn(s) {
      var j :| 0 <= j < |s| && NamesIn(s)[j] == approvals[i].name;
      assert s[j] in approvals;
      var k :| 0 <= k < |approvals| && approvals[k] == s[j];
      UniqueByName(approvals, i, k);
    }
  }

  lemma {:induction false} PositionOf(s: seq<Approval>, j: nat)
    requires UniqueNames(s) && j < |s|
    ensures LastOf(NamesIn(s), |s|, s[j].name) == j
  {
    var l := LastOf(NamesIn(s), |s|, s[j].name);
    assert NamesIn(s)[j] == s[j].name;
    UniqueByName(s, l, j);
  }

  lemma {:induction false} SealedAreRight(prep: Preparation, approvals: seq<Approval>, given: map<string, Verdict>, verdicts: map<string, Verdict>)
    requires UniqueNames(approvals) && prep.policy.Some? && IsSealed(prep)
    requires Mismatched(prep, approvals, |approvals|, given)
    requires var s, votes := SortedVotes(prep, approvals), SealedStatus(prep).value.votes;
             SetUpTo(NamesIn(s), SealedVerdicts(s, votes), |s|, given, verdicts)
    ensures RightVerdicts(prep, approvals, verdicts)
  {
    var s, votes := SortedVotes(prep, approvals), SealedStatus(prep).value.votes;
    SortedIsMatching(prep, approvals);
    forall j | 0 <= j < |s| ensures SealedVerdicts(s, votes)(j) == VerdictOn(prep, approvals, s[j]) {
      assert s[j] in s;
    }
    AreRight(prep, approvals, given, SealedVerdicts(s, votes), verdicts);
  }

  lemma {:induction false} OpenAreRight(prep: Preparation, approvals: seq<Approval>, given: map<string, Verdict>, verdicts: map<string, Verdict>)
    requires UniqueNames(approvals) && prep.policy.Some? && !IsSealed(prep)
    requires Mismatched(prep, approvals, |approvals|, given)
    requires var s := SortedVotes(prep, approvals);
             SetUpTo(NamesIn(s), OpenVerdicts(prep.policy.value, s), |s|, given, verdicts)
    ensures RightVerdicts(prep, approvals, verdicts)
  {
    var s := SortedVotes(prep, approvals);
    SortedIsMatching(prep, approvals);
    forall j | 0 <= j < |s| ensures OpenVerdicts(prep.policy.value, s)(j) == VerdictOn(prep, approvals, s[j]) {
      assert s[j] in s;
      PositionOf(s, j);
    }
    AreRight(prep, approvals, given, OpenVerdicts(prep.policy.value, s), verdicts);
  }

  // ------------------------------------------------------------------ the gate

  predicate IsArchived(prep: Preparation) {
    IsSealed(prep) && prep.status.approval.value.attestation.Some? && prep.status.sealed
  }

  datatype GateResult = GateResult(blocked: bool, reason: Reason, message: Option<Message>)

  function GateOf(prep: Preparation, e: Evaluation): GateResult {
    if !e.approved then GateResult(true, e.reason, Some(e.message))
    else if e.required && !IsArchived(prep) then GateResult(true, SealingApprovals, None)
    else GateResult(false, e.reason, Some(e.message))
  }

  /** No counted vote rejects, and as many as required approve. */
  ghost predicate Approving(policy: Policy, votes: seq<Vote>) {
    (forall v :: v in votes ==> !Rejects(v)) && Count(votes, Approves) >= policy.requiredApprovals
  }

  lemma {:induction false} GateBlocksIff(prep: Preparation, approvals: seq<Approval>)
    ensures !GateOf(prep, EvaluationOf(prep, approvals)).blocked <==>
            prep.policy.None? || (IsArchived(prep) && Approving(prep.policy.value, prep.status.approval.value.votes))
  {
    if prep.policy.Some? {
      CountIsZeroIff(DecidingVotes(prep, approvals), Rejects);
    }
  }

  /** Whether prep may be deployed. Without a policy it always may; with one it
      may exactly when its sealed votes approve and are archived, whatever was
      cast since. While the votes do not approve that is the reason; then that
      they are being sealed. */
  method Gate(prep: Preparation, approvals: seq<Approval>) returns (r: GateResult)
    requires UniqueNames(approvals)
    ensures r == GateOf(prep, EvaluationOf(prep, approvals))
    ensures !r.blocked <==> prep.policy.None? || (IsArchived(prep) && Approving(prep.policy.value, prep.status.approval.value.votes))
    ensures r.reason == ApprovalNotRequired <==> prep.policy.None?
    ensures r.reason == SealingApprovals <==>
              prep.policy.Some? && Approving(prep.policy.value, DecidingVotes(prep, approvals)) && !IsArchived(prep)
    ensures r.reason == ChangesRequested <==>
              prep.policy.Some? && exists v :: v in DecidingVotes(prep, approvals) && Rejects(v)
    ensures r.reason == Approved ==> !r.blocked
  {
    var res, _ := Evaluate(prep, approvals);
    GateBlocksIff(prep, approvals);
    if prep.policy.Some? {
      CountIsZeroIff(DecidingVotes(prep, approvals), Rejects);
    }
    if !res.approved {
      return GateResult(true, res.reason, Some(res.message));
    }
    if res.required && !IsArchived(prep) {
      return GateResult(true, SealingApprovals, None);
    }
    return GateResult(false, res.reason, Some(res.message));
  }
}
