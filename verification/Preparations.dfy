/** Preparations and the Approvals that vote on them: api/v1alpha1. */
module Preparations {
  import opened Options
  import opened Times
  import opened Gate

  datatype Decision = Approve | Reject

  datatype Approver = Approver(issuer: string, subject: string, username: string, groups: seq<string>)

  /** A vote. Its spec never changes and it is never deleted. */
  datatype Approval = Approval(
    name: string,
    uid: string,
    created: Time,
    preparationUID: string,
    artifactDigest: string,
    approver: Approver,
    decision: Decision,
    comment: string,
    submitted: Time)

  datatype Policy = Policy(requiredApprovals: nat, allowedGroups: seq<string>)

  datatype VoteResult = VoteCounted | VoteNotEligible

  datatype Vote = Vote(
    approvalName: string,
    issuer: string,
    subject: string,
    username: string,
    decision: Decision,
    result: VoteResult,
    submitted: Time)

  datatype Attestation = Attestation(ociRef: string, digest: string)

  datatype ApprovalStatus = ApprovalStatus(
    requiredApprovals: nat,
    approvedCount: nat,
    rejectedCount: nat,
    ineligibleCount: nat,
    submissionCount: nat,
    votes: seq<Vote>,
    sealedTime: Option<Time>,
    attestation: Option<Attestation>)

  /** The status fields the gates read. evidence says that the artifact is
      signed and its provenance attached, which makes the Preparation Ready;
      sealed is the ApprovalsSealed condition. */
  datatype PreparationStatus = PreparationStatus(
    evidence: bool,
    approved: bool,
    approval: Option<ApprovalStatus>,
    sealed: bool)

  /** The spec, which is immutable, and the status. */
  datatype Preparation = Preparation(
    name: string,
    uid: string,
    orderName: string,
    digest: string,
    ociRef: string,
    registry: string,
    revision: string,
    policy: Option<Policy>,
    stages: seq<Stage>,
    status: PreparationStatus)
}
