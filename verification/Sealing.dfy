/** Sealing and archiving the votes on a Preparation:
    internal/controller/preparation_controller.go. */
module Sealing {
  import opened Options
  import opened Preparations
  import opened Sequences
  import opened Times
  import opened Approvals
  import opened Attestations

  /** How recording the sealed votes went: without a signing key, without a
      connection to the registry, without success, or under a digest. */
  datatype Archiving = NoSigningKey | NotConnected | PushFailed | Pushed(digest: string)

  /** What a reconcile reads, when it gets there; None is an error. */
  datatype Reads = Reads(
    evidenceAttached: bool,
    cached: Option<seq<Approval>>,
    targeted: Option<bool>,
    listed: Option<seq<Approval>>,
    now: Time,
    archiving: Archiving)

  predicate ValidReads(r: Reads) {
    && (r.cached.Some? ==> UniqueNames(r.cached.value))
    && (r.listed.Some? ==> UniqueNames(r.listed.value))
  }

  // ---------------------------------------------------------- specification

  function Marked(status: PreparationStatus, e: Evaluation): PreparationStatus {
    status.(approval := if e.required then e.status else None, approved := e.approved)
  }

  function WithStatus(prep: Preparation, status: PreparationStatus): Preparation {
    prep.(status := status)
  }

  /** marked is prep with the evaluation of the Approvals in its status. */
  ghost predicate IsMarked(prep: Preparation, marked: Preparation, approvals: seq<Approval>) {
    && EvaluationOf(marked, approvals) == EvaluationOf(prep, approvals)
    && (IsSealed(marked) <==> prep.policy.Some? && IsSealed(prep))
    && (marked.status.approved <==> prep.policy.None? || Approving(prep.policy.value, DecidingVotes(marked, approvals)))
  }

  lemma {:induction false} MarkedEvaluatesAlike(prep: Preparation, approvals: seq<Approval>)
    ensures IsMarked(prep, WithStatus(prep, Marked(prep.status, EvaluationOf(prep, approvals))), approvals)
  {
    var marked := WithStatus(prep, Marked(prep.status, EvaluationOf(prep, approvals)));
    if prep.policy.Some? {
      MatchingIgnoresStatus(prep, marked, approvals);
      assert DecidingVotes(marked, approvals) == DecidingVotes(prep, approvals);
      CountIsZeroIff(DecidingVotes(marked, approvals), Rejects);
    }
  }

  lemma {:induction false} MatchingIgnoresStatus(a: Preparation, b: Preparation, s: seq<Approval>)
    requires a.uid == b.uid && a.digest == b.digest
    ensures Matching(a, s) == Matching(b, s)
  {
    if s != [] {
      MatchingIgnoresStatus(a, b, s[..|s| - 1]);
    }
  }

  function SealOf(prep: Preparation, listed: Option<seq<Approval>>, now: Time): PreparationStatus
    requires prep.policy.Some?
  {
    if listed.None? then prep.status
    else
      var e := EvaluationOf(prep, listed.value);
      var marked := Marked(prep.status, e);
      if !e.approved then marked
      else
        marked.(approval := Some(marked.approval.value.(sealedTime := Some(Seconds(now)), attestation := None)), sealed := false)
  }

  function AttestationAt(prep: Preparation, digest: string): Attestation {
    Attestation(prep.ociRef + "@" + digest, digest)
  }

  function ArchiveOf(prep: Preparation, r: Reads): PreparationStatus
    requires IsSealed(prep)
  {
    if r.archiving.NoSigningKey? then prep.status.(sealed := false)
    else if r.listed.None? || r.archiving.NotConnected? then prep.status
    else if r.archiving.PushFailed? || prep.policy.None? then prep.status.(sealed := false)
    else
      var approval := prep.status.approval.value.(attestation := Some(AttestationAt(prep, r.archiving.digest)));
      prep.status.(approval := Some(approval), sealed := true)
  }

  /** Whether the reconcile goes on to archive, after what it marked. */
  predicate Archives(prep: Preparation) {
    prep.policy.Some? && IsSealed(prep) && SealedStatus(prep).value.attestation.None?
  }

  /** The status one reconcile leaves. */
  function ReconcileOf(prep: Preparation, r: Reads): PreparationStatus {
    if !prep.status.evidence then prep.status.(evidence := r.evidenceAttached)
    else if r.cached.None? then prep.status
    else
      var e := EvaluationOf(prep, r.cached.value);
      var marked := WithStatus(prep, Marked(prep.status, e));
      if !e.required then marked.status
      else if Archives(marked) then ArchiveOf(marked, r)
      else if IsSealed(marked) || !e.approved then marked.status
      else if r.targeted != Some(true) then marked.status
      else SealOf(marked, r.listed, r.now)
  }

  // --------------------------------------------------------- implementation

  /** One reconcile of a Preparation: its spec and the status it takes on. */
  class Reconcile {
    const spec: Preparation
    var status: PreparationStatus

    constructor (read: Preparation)
      ensures Current() == read
    {
      spec, status := read, read.status;
    }

    function Current(): Preparation
      reads this
    {
      WithStatus(spec, status)
    }

    /** Aggregates what was evaluated, and says whether the votes approve. Nothing
        else of the status changes, no votes are sealed or unsealed, and evaluating
        the same Approvals again gives the same. */
    method MarkApproval(res: Evaluation)
      modifies this
      ensures status == Marked(old(status), res)
      ensures status.evidence == old(status.evidence) && status.sealed == old(status.sealed)
      ensures forall approvals :: res == EvaluationOf(old(Current()), approvals) ==>
                && EvaluationOf(Current(), approvals) == res
                && (IsSealed(Current()) <==> spec.policy.Some? && IsSealed(old(Current())))
                && (status.approved <==> spec.policy.None? || Approving(spec.policy.value, DecidingVotes(Current(), approvals)))
    {
      forall approvals | res == EvaluationOf(Current(), approvals)
        ensures IsMarked(Current(), WithStatus(spec, Marked(status, res)), approvals)
      {
        MarkedEvaluatesAlike(Current(), approvals);
      }
      status := status.(approval := None);
      if res.required {
        status := status.(approval := res.status);
      }
      status := status.(approved := res.approved);
    }

    /** Locks the votes, read afresh so that no vote in flight is missed. */
    method Seal(listed: Option<seq<Approval>>, now: Time)
      requires spec.policy.Some? && (listed.Some? ==> UniqueNames(listed.value))
      modifies this
      ensures status == SealOf(old(Current()), listed, now)
    {
      if listed.None? {
        return;
      }
      var res, _ := Evaluate(Current(), listed.value);
      MarkApproval(res);
      if !res.approved {
        return;
      }
      var sealedTime := Seconds(now);
      status := status.(approval := Some(status.approval.value.(sealedTime := Some(sealedTime))));
      status := status.(approval := Some(status.approval.value.(attestation := None)));
      status := status.(sealed := false);
    }

    /** Records the sealed votes as a signed attestation. */
    method Archive(r: Reads)
      requires IsSealed(Current()) && ValidReads(r)
      modifies this
      ensures status == ArchiveOf(old(Current()), r)
    {
      if r.archiving.NoSigningKey? {
        status := status.(sealed := false);
        return;
      }
      if r.listed.None? || r.archiving.NotConnected? {
        return;
      }
      var built := BuildAttestation(Current(), r.listed.value);
      if !built.Built? || r.archiving.PushFailed? {
        status := status.(sealed := false);
        return;
      }
      status := status.(approval := Some(status.approval.value.(attestation := Some(AttestationAt(spec, r.archiving.digest)))));
      status := status.(sealed := true);
    }

    /** Marks the approval, then archives sealed votes, or seals the votes of an
        approved Preparation that its Serving targets. */
    method ReconcilePreparation(r: Reads)
      requires ValidReads(r)
      modifies this
      ensures status == ReconcileOf(old(Current()), r)
    {
      if !status.evidence {
        status := status.(evidence := r.evidenceAttached);
        return;
      }
      if r.cached.None? {
        return;
      }
      var res, _ := Evaluate(Current(), r.cached.value);
      MarkApproval(res);
      if !res.required {
        return;
      }
      if IsSealed(Current()) && status.approval.value.attestation.None? {
        Archive(r);
        return;
      }
      if IsSealed(Current()) || !res.approved {
        return;
      }
      if r.targeted != Some(true) {
        return;
      }
      Seal(r.listed, r.now);
    }
  }

  // -------------------------------------------------- what a reconcile keeps

  /** Sealed votes approve, an attestation is of sealed votes, and only an
      attestation makes the votes count as archived. */
  predicate StatusOk(prep: Preparation) {
    && (prep.status.approval.Some? ==> prep.policy.Some?)
    && (IsSealed(prep) ==> ApprovedUnder(prep.policy.value, SealedStatus(prep).value.votes) && prep.status.approved)
    && (prep.status.approval.Some? && prep.status.approval.value.attestation.Some? ==> IsSealed(prep))
    && (prep.status.sealed ==> IsSealed(prep) && SealedStatus(prep).value.attestation.Some?)
  }

  /** Nothing that was sealed or archived changed. */
  predicate Follows(was: Preparation, is_: Preparation) {
    && (IsSealed(was) ==> IsSealed(is_)
                          && SealedStatus(is_).value.sealedTime == SealedStatus(was).value.sealedTime
                          && SealedStatus(is_).value.votes == SealedStatus(was).value.votes)
    && (IsSealed(was) && SealedStatus(was).value.attestation.Some? ==>
          SealedStatus(is_).value.attestation == SealedStatus(was).value.attestation)
  }

  lemma {:induction false} MarkedKeeps(prep: Preparation, approvals: seq<Approval>)
    requires StatusOk(prep)
    ensures var marked := WithStatus(prep, Marked(prep.status, EvaluationOf(prep, approvals)));
            && StatusOk(marked) && Follows(prep, marked)
            && (IsSealed(marked) <==> IsSealed(prep))
            && (IsSealed(marked) ==> SealedStatus(marked).value.attestation == SealedStatus(prep).value.attestation)
            && marked.status.sealed == prep.status.sealed
  {
  }

  lemma {:induction false} ReconcileKeeps(prep: Preparation, r: Reads)
    requires StatusOk(prep)
    ensures var after := WithStatus(prep, ReconcileOf(prep, r));
            StatusOk(after) && Follows(prep, after)
  {
    if prep.status.evidence && r.cached.Some? {
      MarkedKeeps(prep, r.cached.value);
      var marked := WithStatus(prep, Marked(prep.status, EvaluationOf(prep, r.cached.value)));
      if r.listed.Some? && prep.policy.Some? && !IsSealed(marked) {
        MarkedKeeps(marked, r.listed.value);
      }
    }
  }
}
