/** Every archive of a Preparation is the same statement, so its retries find
    the attestation they pushed before. */
module StatementRuns {
  import opened Options
  import opened Preparations
  import opened Sorting
  import opened Times
  import opened Approvals
  import opened ApprovalProperties
  import opened SealingPreserves
  import opened Attestations
  import opened Sealing
  import opened SealingRuns

  // ------------------------------------------------- what a statement depends on

  /** Two versions of a Preparation with the same sealed votes. */
  predicate SealedAlike(a: Preparation, b: Preparation) {
    && b == WithStatus(a, b.status)
    && IsSealed(a) && IsSealed(b)
    && SealedStatus(a).value.votes == SealedStatus(b).value.votes
    && SealedStatus(a).value.sealedTime == SealedStatus(b).value.sealedTime
  }

  lemma {:induction false} SameStatement(a: Preparation, b: Preparation, approvals: seq<Approval>)
    requires SealedAlike(a, b)
    ensures BuiltOf(a, approvals) == BuiltOf(b, approvals)
  {
    MatchingIgnoresStatus(a, b, approvals);
    forall x ensures VerdictOn(a, approvals, x) == VerdictOn(b, approvals, x) {
    }
    SameFilter(SortBy(approvals, Leq), RecordedIn(a, approvals), RecordedIn(b, approvals));
    SubmittedAlike(a, b, approvals, RecordedOf(a, approvals));
  }

  lemma {:induction false} SubmittedAlike(a: Preparation, b: Preparation, approvals: seq<Approval>, r: seq<Approval>)
    requires forall x :: VerdictOn(a, approvals, x) == VerdictOn(b, approvals, x)
    ensures Submitted(a, approvals, r) == Submitted(b, approvals, r)
  {
  }

  lemma {:induction false} HasSealedAlike(a: Preparation, b: Preparation, approvals: seq<Approval>)
    requires SealedAlike(a, b) && HasSealed(a, approvals)
    ensures HasSealed(b, approvals)
  {
    MatchingIgnoresStatus(a, b, approvals);
    assert SortedVotes(a, approvals) == SortedVotes(b, approvals) && SealedVotesOf(a) == SealedVotesOf(b);
  }

  /** The votes that are sealed are votes that were listed. */
  lemma {:induction false} SealHasSealed(prep: Preparation, listed: seq<Approval>, votes: seq<Approval>, now: Time)
    requires prep.policy.Some? && !IsSealed(prep) && UniqueNames(votes) && multiset(listed) == multiset(votes)
    ensures var after := WithStatus(prep, SealOf(prep, Some(listed), now));
            IsSealed(after) ==> HasSealed(after, votes)
  {
    var after := WithStatus(prep, SealOf(prep, Some(listed), now));
    UniqueInPermutation(votes, listed);
    SameVotes(prep, votes, listed);
    MatchingIgnoresStatus(prep, after, votes);
    var s := SortedVotes(prep, votes);
    if IsSealed(after) {
      SealedVotes(prep.policy.value, s);
      var sealed := OpenVotes(prep.policy.value, s);
      assert SealedVotesOf(after) == sealed;
      forall v | v in VoteNames(sealed) ensures v in NamesIn(s) {
        var i :| 0 <= i < |sealed| && VoteNames(sealed)[i] == v;
        assert NamesIn(s)[SealedPositions(s)[i]] == v;
      }
    }
  }

  lemma {:induction false} PrefixIsUnique(votes: seq<Approval>, from: nat)
    requires UniqueNames(votes) && from <= |votes|
    ensures UniqueNames(votes[..from]) && Includes(votes, votes[..from])
  {
    assert NamesIn(votes[..from]) == NamesIn(votes)[..from];
  }

  /** What an archive of sealed votes builds, whenever it lists the votes. */
  lemma {:induction false} ArchivesTheSame(prep: Preparation, marked: Preparation, listed: seq<Approval>, votes: seq<Approval>, from: nat)
    requires SealedAlike(prep, marked) && prep.policy.Some?
    requires UniqueNames(votes) && from <= |votes| && HasSealed(prep, votes[..from])
    requires AddedAfterSealed(prep, votes[..from], votes)
    requires multiset(listed) == multiset(votes)
    ensures BuiltOf(marked, listed) == BuiltOf(prep, votes[..from])
  {
    PrefixIsUnique(votes, from);
    StatementIsOrderIndependent(marked, votes, listed);
    SameStatement(prep, marked, votes);
    StatementIsStableIff(prep, votes[..from], votes);
  }

  /** No vote was cast after the seal that sorts before the sealed vote of its
      approver. */
  predicate CastAfterSealed(s: State) {
    s.versions != [] && IsSealed(s.Last()) && s.sealedFrom <= |s.votes| ==> AddedAfterSealed(s.Last(), s.votes[..s.sealedFrom], s.votes)
  }

  lemma {:induction false} AddedBefore(a: Preparation, b: Preparation, votes: seq<Approval>, more: seq<Approval>, from: nat)
    requires SealedAlike(a, b) && from <= |votes| && votes <= more && AddedAfterSealed(b, more[..from], more)
    ensures AddedAfterSealed(a, votes[..from], votes)
  {
    assert votes[..from] == more[..from];
    MatchingIgnoresStatus(a, b, votes[..from]);
    forall i | 0 <= i < |votes| && votes[i] !in votes[..from] && Matches(a, votes[i]) ensures AfterSealed(a, votes[..from], votes[i]) {
      assert more[i] == votes[i];
      assert AfterSealed(b, more[..from], more[i]);
    }
  }

  /** It was so before every step. */
  lemma {:induction false} CastAfterSealedBefore(s: State, step: Step)
    requires Inv(s) && Enabled(s, step) && CastAfterSealed(Apply(s, step))
    ensures CastAfterSealed(s)
  {
    var t := Apply(s, step);
    if IsSealed(s.Last()) && s.sealedFrom <= |s.votes| {
      if step.Commit? {
        assert PassOk(s.spec, s.versions, s.passes[step.pass]);
      }
      assert s.votes <= t.votes && SealedAlike(s.Last(), t.Last()) && t.sealedFrom == s.sealedFrom;
      AddedBefore(s.Last(), t.Last(), s.votes, t.votes, s.sealedFrom);
    }
  }

  // ------------------------------------------------------------- the invariant

  predicate HasSealedFrom(prep: Preparation, votes: seq<Approval>, n: nat) {
    n <= |votes| && HasSealed(prep, votes[..n])
  }

  /** A reconcile that seals had read the votes it seals. */
  predicate SealsSeen(spec: Preparation, versions: seq<PreparationStatus>, votes: seq<Approval>, pass: Pass) {
    && pass.Patching? && pass.base < |versions|
    && !IsSealed(WithStatus(spec, versions[pass.base])) && IsSealed(WithStatus(spec, pass.result)) ==>
      HasSealedFrom(WithStatus(spec, pass.result), votes, pass.seen)
  }

  predicate AllSealsSeen(spec: Preparation, versions: seq<PreparationStatus>, votes: seq<Approval>, passes: seq<Pass>) {
    forall p :: 0 <= p < |passes| ==> SealsSeen(spec, versions, votes, passes[p])
  }

  /** The attestation of a version is in the registry. */
  predicate AttestedIn(registry: map<string, ApprovalStatement>, status: PreparationStatus) {
    status.approval.Some? && status.approval.value.attestation.Some? ==> status.approval.value.attestation.value.digest in registry
  }

  predicate AllAttested(registry: map<string, ApprovalStatement>, versions: seq<PreparationStatus>, passes: seq<Pass>) {
    && (forall v :: 0 <= v < |versions| ==> AttestedIn(registry, versions[v]))
    && (forall p :: 0 <= p < |passes| && passes[p].Patching? ==> AttestedIn(registry, passes[p].result))
  }

  /** The registry holds at most the statement of the votes at the seal, once. */
  predicate HoldsOne(last: Preparation, votes: seq<Approval>, from: nat, registry: map<string, ApprovalStatement>) {
    && (IsSealed(last) ==> HasSealedFrom(last, votes, from))
    && (forall d :: d in registry ==> IsSealed(last) && from <= |votes| && BuiltOf(last, votes[..from]) == Built(registry[d]))
    && (forall d, e :: d in registry && e in registry && registry[d] == registry[e] ==> d == e)
  }

  predicate RegistryOk(s: State) {
    && s.versions != []
    && HoldsOne(s.Last(), s.votes, s.sealedFrom, s.registry)
    && AllAttested(s.registry, s.versions, s.passes)
    && AllSealsSeen(s.spec, s.versions, s.votes, s.passes)
  }

  /** A reconcile that finishes writes at most the one statement. */
  lemma {:induction false} FinishWrites(s: State, p: nat, r: Reads, written: Option<string>)
    requires Inv(s) && RegistryOk(s) && CastAfterSealed(s) && Enabled(s, Finish(p, r, written)) && written.Some?
    ensures IsSealed(s.Last()) && HasSealedFrom(s.Last(), s.votes, s.sealedFrom)
    ensures ArchivedStatement(s.At(s.passes[p].base), r) == BuiltOf(s.Last(), s.votes[..s.sealedFrom])
  {
    var base := s.passes[p].base;
    assert PassOk(s.spec, s.versions, s.passes[p]);
    var prep, last := s.At(base), s.Last();
    MarkedKeeps(prep, r.cached.value);
    var marked := WithStatus(prep, Marked(prep.status, EvaluationOf(prep, r.cached.value)));
    assert base < |s.versions| - 1 ==> Follows(prep, last);
    assert StatusOk(last);
    ArchivesTheSame(last, marked, r.listed.value, s.votes, s.sealedFrom);
  }

  lemma {:induction false} FinishSeals(s: State, p: nat, r: Reads, written: Option<string>)
    requires Inv(s) && Enabled(s, Finish(p, r, written))
    ensures SealsSeen(s.spec, s.versions, s.votes, Patching(s.passes[p].base, ReconcileOf(s.At(s.passes[p].base), r), |s.votes|))
  {
    assert PassOk(s.spec, s.versions, s.passes[p]);
    var prep := s.At(s.passes[p].base);
    var after := WithStatus(s.spec, ReconcileOf(prep, r));
    if !IsSealed(prep) && IsSealed(after) {
      MarkedKeeps(prep, r.cached.value);
      var marked := WithStatus(prep, Marked(prep.status, EvaluationOf(prep, r.cached.value)));
      SealHasSealed(marked, r.listed.value, s.votes, r.now);
      assert s.votes[..|s.votes|] == s.votes;
    }
  }

  /** The attestation a reconcile sets is one it wrote, or was there. */
  lemma {:induction false} ReconcileAttests(prep: Preparation, r: Reads, registry: map<string, ApprovalStatement>, written: Option<string>)
    requires StatusOk(prep) && AttestedIn(registry, prep.status)
    requires WrittenAs(registry, ArchivedStatement(prep, r), r.archiving, written)
    ensures var after := ReconcileOf(prep, r);
            && after.approval.Some? && after.approval.value.attestation.Some? ==>
              after.approval.value.attestation.value.digest in registry || Some(after.approval.value.attestation.value.digest) == written
  {
    if prep.status.evidence && r.cached.Some? {
      MarkedKeeps(prep, r.cached.value);
    }
  }

  lemma {:induction false} WriteKeeps(s: State, digest: string, statement: ApprovalStatement)
    requires RegistryOk(s) && IsSealed(s.Last()) && HasSealedFrom(s.Last(), s.votes, s.sealedFrom)
    requires Built(statement) == BuiltOf(s.Last(), s.votes[..s.sealedFrom])
    requires if digest in s.registry then s.registry[digest] == statement else statement !in s.registry.Values
    ensures RegistryOk(s.(registry := s.registry[digest := statement]))
  {
  }

  lemma {:induction false} FinishKeepsRegistry(s: State, p: nat, r: Reads, written: Option<string>)
    requires Inv(s) && RegistryOk(s) && CastAfterSealed(s) && Enabled(s, Finish(p, r, written))
    ensures RegistryOk(Apply(s, Finish(p, r, written)))
  {
    var prep, t := s.At(s.passes[p].base), Apply(s, Finish(p, r, written));
    FinishSeals(s, p, r, written);
    assert StatusOk(prep) && AttestedIn(s.registry, prep.status);
    ReconcileAttests(prep, r, s.registry, written);
    var u := s.(registry := t.registry);
    if written.Some? {
      FinishWrites(s, p, r, written);
      WriteKeeps(s, written.value, ArchivedStatement(prep, r).statement);
    }
    assert RegistryOk(u);
    PassKeepsRegistry(u, p, t.passes[p]);
  }

  lemma {:induction false} PassKeepsRegistry(s: State, p: nat, pass: Pass)
    requires RegistryOk(s) && p < |s.passes|
    requires SealsSeen(s.spec, s.versions, s.votes, pass) && (pass.Patching? ==> AttestedIn(s.registry, pass.result))
    ensures RegistryOk(s.(passes := s.passes[p := pass]))
  {
  }

  lemma {:induction false} CastKeepsRegistry(s: State, a: Approval)
    requires Inv(s) && RegistryOk(s) && Enabled(s, Cast(a))
    ensures RegistryOk(Apply(s, Cast(a)))
  {
    var t := Apply(s, Cast(a));
    forall n: nat | n <= |s.votes| ensures t.votes[..n] == s.votes[..n] {
    }
    forall q | 0 <= q < |t.passes| ensures SealsSeen(t.spec, t.versions, t.votes, t.passes[q]) {
      assert SealsSeen(s.spec, s.versions, s.votes, s.passes[q]);
    }
  }

  lemma {:induction false} CommitKeepsRegistry(s: State, p: nat)
    requires Inv(s) && RegistryOk(s) && Enabled(s, Commit(p)) && s.passes[p].base + 1 == |s.versions|
    ensures RegistryOk(Apply(s, Commit(p)))
  {
    var t, pass := Apply(s, Commit(p)), s.passes[p];
    assert PassOk(s.spec, s.versions, pass);
    assert SealsSeen(s.spec, s.versions, s.votes, pass) && AttestedIn(s.registry, pass.result);
    if IsSealed(s.Last()) {
      assert SealedAlike(s.Last(), t.Last());
      HasSealedAlike(s.Last(), t.Last(), s.votes[..s.sealedFrom]);
      SameStatement(s.Last(), t.Last(), s.votes[..s.sealedFrom]);
    }
    forall q | 0 <= q < |t.passes| ensures SealsSeen(t.spec, t.versions, t.votes, t.passes[q]) {
      var o := if q < p then q else q + 1;
      assert SealsSeen(s.spec, s.versions, s.votes, s.passes[o]) && PassOk(s.spec, s.versions, s.passes[o]);
    }
  }

  lemma {:induction false} StepKeepsRegistry(s: State, step: Step)
    requires Inv(s) && RegistryOk(s) && CastAfterSealed(s) && Enabled(s, step)
    ensures RegistryOk(Apply(s, step))
  {
    match step
    case Cast(a) => CastKeepsRegistry(s, a);
    case Read(v) =>
    case Finish(p, r, written) => FinishKeepsRegistry(s, p, r, written);
    case Commit(p) =>
      if s.passes[p].base + 1 == |s.versions| {
        CommitKeepsRegistry(s, p);
      }
    case Abandon(p) =>
    case Promote(v, cached) =>
  }

  lemma {:induction false} RunKeepsRegistry(spec: Preparation, steps: seq<Step>, states: seq<State>, k: nat)
    requires IsRun(spec, steps, states) && k < |states| && CastAfterSealed(states[k])
    ensures Inv(states[k]) && RegistryOk(states[k])
  {
    RunKeeps(spec, steps, states, k);
    if k > 0 {
      RunKeeps(spec, steps, states, k - 1);
      CastAfterSealedBefore(states[k - 1], steps[k - 1]);
      RunKeepsRegistry(spec, steps, states, k - 1);
      StepKeepsRegistry(states[k - 1], steps[k - 1]);
    }
  }

  /** While no vote is cast after the seal that sorts before the sealed vote of its
      approver, at most one statement is ever archived for a Preparation, under one
      digest, whatever crashes, retries and votes come in between; it is the statement of the
      votes at the seal, and the one that every attested version points at. */
  lemma {:induction false} OneStatement(spec: Preparation, steps: seq<Step>, states: seq<State>, k: nat)
    requires IsRun(spec, steps, states) && k < |states| && CastAfterSealed(states[k])
    ensures var s := states[k];
            && s.versions != []
            && (forall d, e :: d in s.registry && e in s.registry ==> d == e)
            && (forall d :: d in s.registry ==> IsSealed(s.Last()) && s.sealedFrom <= |s.votes|
                                                && BuiltOf(s.Last(), s.votes[..s.sealedFrom]) == Built(s.registry[d]))
            && (forall v :: 0 <= v < |s.versions| ==> AttestedIn(s.registry, s.versions[v]))
  {
    RunKeepsRegistry(spec, steps, states, k);
    var s := states[k];
    forall d, e | d in s.registry && e in s.registry ensures d == e {
      assert Built(s.registry[d]) == Built(s.registry[e]);
    }
  }
}
