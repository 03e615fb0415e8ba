/** The records a stage writes to the registry: internal/promotion/record.go and
    registry.go. */
module Records {
  import opened Options
  import opened Times
  import opened Histories
  import opened Gate
  import opened GateProperties

  datatype Artifact = Artifact(name: string, digest: string)

  datatype DeploymentEvidence = DeploymentEvidence(preparation: Artifact, healthyTime: Time, record: string)

  datatype StageEvidence = StageEvidence(
    order: string,
    soakSeconds: SoakSeconds,
    deployment: Option<DeploymentEvidence>,
    promotion: string)

  /** The evidence of the gates a promotion passed; that of its checks is given. */
  datatype Gates = Gates(approvals: Option<string>, after: seq<StageEvidence>, checks: Option<string>)

  datatype Target = Target(cluster: string, server: string, namespace: string)

  datatype Statement =
    | PromotionRecord(
        ociRef: string,
        digest: string,
        order: string,
        preparation: Artifact,
        previous: Option<Artifact>,
        revision: string,
        mode: string,
        time: Time,
        gates: Gates)
    | DeploymentRecord(
        ociRef: string,
        digest: string,
        order: string,
        preparation: Artifact,
        revision: string,
        promotion: string,
        healthyTime: Time,
        targets: seq<Target>)

  /** An instant as records store it: in seconds. */
  function Timestamp(t: Time): Time { Seconds(t) }

  // ------------------------------------------------------------------ evidence

  /** The evidence for the stage at position i of what the gate passed with. */
  function EvidenceFor(stages: seq<Stage>, result: Result, i: nat): StageEvidence
    requires i < |stages|
  {
    var e := StageEvidence(stages[i].order, stages[i].soakSeconds, None, "");
    if result.promotion != "" then e.(promotion := result.promotion)
    else if i < |result.qualified| then
      var q := result.qualified[i].entry;
      e.(deployment := Some(DeploymentEvidence(Artifact(q.preparation, q.digest), Timestamp(q.healthy), q.deploymentRecord)))
    else e
  }

  function EvidenceOf(stages: seq<Stage>, result: Result): seq<StageEvidence> {
    seq(|stages|, i requires 0 <= i < |stages| => EvidenceFor(stages, result, i))
  }

  method StageEvidenceOf(stages: seq<Stage>, result: Result) returns (evidence: seq<StageEvidence>)
    ensures evidence == EvidenceOf(stages, result)
  {
    evidence := [];
    for i := 0 to |stages|
      invariant evidence == EvidenceOf(stages, result)[..i]
    {
      var e := StageEvidence(stages[i].order, stages[i].soakSeconds, None, "");
      if result.promotion != "" {
        e := e.(promotion := result.promotion);
      } else if i < |result.qualified| {
        var q := result.qualified[i].entry;
        e := e.(deployment := Some(DeploymentEvidence(Artifact(q.preparation, q.digest), Timestamp(q.healthy), q.deploymentRecord)));
      }
      evidence := evidence + [e];
    }
  }

  /** ev names a deployment of the stage's own that qualifies the revision. */
  ghost predicate NamesUpstream(req: Request, stage: Stage, ev: StageEvidence) {
    && ev.promotion == "" && ev.deployment.Some?
    && exists e :: QualifiesFor(req, stage, e)
                   && ev.deployment.value == DeploymentEvidence(Artifact(e.preparation, e.digest), Timestamp(e.healthy), e.deploymentRecord)
  }

  /** ev names the record of an earlier promotion of the Preparation. */
  predicate NamesEarlier(req: Request, ev: StageEvidence) {
    && ev.deployment.None?
    && exists e :: e in req.self && e.preparation == req.preparation && e.Promoted() && ev.promotion == e.promotionRecord
  }

  /** The evidence of a gate that was passed names, stage by stage and in their
      order, a deployment of that stage's own that qualifies the revision; or
      the record of the promotion of the Preparation that came before. */
  lemma {:induction false} EvidenceNamesEachStage(req: Request, i: nat)
    requires ResultOf(req).outcome == Satisfied && i < |req.stages|
    ensures |EvidenceOf(req.stages, ResultOf(req))| == |req.stages|
    ensures var ev := EvidenceOf(req.stages, ResultOf(req))[i];
            && ev.order == req.stages[i].order && ev.soakSeconds == req.stages[i].soakSeconds
            && if PromotedHereBefore(req) then NamesEarlier(req, ev) else NamesUpstream(req, req.stages[i], ev)
  {
    QualifiedLinesUp(req);
    var r := ResultOf(req);
    var ev := EvidenceFor(req.stages, r, i);
    if PromotedHereBefore(req) {
      var earlier := PromotedBefore(req.self, req.preparation).value;
      assert earlier in req.self && ev.promotion == earlier.promotionRecord;
    } else {
      assert QualifiesFor(req, req.stages[i], r.qualified[i].entry);
    }
  }

  // ---------------------------------------------------------------- statements

  function ArtifactOf(e: Entry): Artifact { Artifact(e.preparation, e.digest) }

  /** The promotion record of the pending entry, after the previous one. */
  function PromotionStatement(order: string, mode: string, pending: Entry, previous: Option<Entry>, gates: Gates): Statement {
    PromotionRecord(pending.ociRef, pending.digest, order, ArtifactOf(pending),
                    if previous.Some? then Some(ArtifactOf(previous.value)) else None,
                    pending.revision, mode, Timestamp(pending.started), gates)
  }

  /** What PushPromotion pushes for a history, nothing without a pending entry. */
  function PromotionOf(order: string, mode: string, h: History, gates: Gates): Option<Statement> {
    if Pending(h).None? then None
    else Some(PromotionStatement(order, mode, h[0], Deployed(h[1..]), gates))
  }

  /** The deployment record of e, which needs to have been healthy. */
  function DeploymentStatement(order: string, e: Entry, targets: seq<Target>): Option<Statement> {
    if !IsSet(e.healthy) then None
    else
      Some(DeploymentRecord(e.ociRef, e.digest, order, ArtifactOf(e), e.revision, e.promotionRecord, Timestamp(e.healthy), targets))
  }

  datatype Mismatch = OtherOrder | OtherDigest | OtherRevision | OtherHealthyTime

  /** Checks that a deployment record attests the deployment of e by order. */
  function VerifyDeployment(record: Statement, order: string, e: Entry): Option<Mismatch>
    requires record.DeploymentRecord?
  {
    if record.order != order then Some(OtherOrder)
    else if record.preparation.digest != e.digest then Some(OtherDigest)
    else if record.revision != e.revision then Some(OtherRevision)
    else if record.healthyTime != Timestamp(e.healthy) then Some(OtherHealthyTime)
    else None
  }

  /** A record verifies against exactly the deployments of the same artifact and
      revision by the same Order that became healthy in the same second. */
  lemma VerifiesIff(order: string, e: Entry, targets: seq<Target>, order': string, f: Entry)
    requires IsSet(e.healthy)
    ensures VerifyDeployment(DeploymentStatement(order, e, targets).value, order', f).None? <==>
            order == order' && e.digest == f.digest && e.revision == f.revision && Seconds(e.healthy) == Seconds(f.healthy)
  {
  }

  // ------------------------------------------------------------------ registry

  /** A push of a statement that is in the registry finds it, and any other gets
      a digest of its own. */
  predicate PushedAs<S(==)>(registry: map<string, S>, statement: S, digest: string) {
    && digest != ""
    && if digest in registry then registry[digest] == statement else statement !in registry.Values
  }
}
