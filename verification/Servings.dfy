/** One reconcile of the Serving of a stage: whether it promotes a Preparation,
    and what it deploys. internal/controller/serving_controller.go. */
module Servings {
  import opened Options
  import opened Times
  import opened Histories
  import opened HistoryRuns
  import G = Gate
  import opened Records
  import opened Preparations
  import A = Approvals

  datatype Requirement = Requirement(environment: string, minSoakSeconds: int)

  datatype UpstreamOrder = UpstreamOrder(environment: string, upstream: G.Upstream)

  /** How verifying a deployment record in the registry went. */
  datatype Verification = Verifies | Rejected | Unreadable

  datatype Checks = Checks(passed: bool, evidence: Option<string>)

  /** What a reconcile reads as it promotes, when it gets there; None is an
      error. pushed is the digest of the promotion record. */
  datatype Reads = Reads(
    product: string,
    mode: string,
    requirements: Option<seq<Requirement>>,
    orders: Option<map<string, UpstreamOrder>>,
    records: map<G.Qualified, Verification>,
    checks: Option<Checks>,
    approvals: Option<seq<Approval>>,
    evidence: Option<bool>,
    pushed: Option<string>,
    now: Time)

  predicate ValidReads(r: Reads) {
    r.approvals.Some? ==> A.UniqueNames(r.approvals.value)
  }

  /** Whether the upstream stages let a Preparation through. */
  datatype Upstream =
    | NoneRequired
    | Requires
    | Holds(result: G.Result)
    | RecordRejected
    | Passes(result: G.Result)
  {
    predicate Satisfied() { NoneRequired? || Passes? }

    function Result(): G.Result {
      if Passes? then result else G.Result(G.Satisfied, G.NoStages, 0, [], "")
    }
  }

  /** What promoting a candidate comes to. */
  datatype Decision =
    | Failed
    | NotReady
    | AwaitsUpstream
    | HeldByChecks
    | AwaitsApproval
    | AwaitsEvidence
    | Keeps
    | Opens
    | Starts(gates: Gates)

  // ---------------------------------------------------------- specification

  /** Every requirement is met by a stage of its Environment with its soak. */
  predicate RequirementsMet(stages: seq<G.Stage>, orders: map<string, UpstreamOrder>, requirements: seq<Requirement>) {
    forall q :: q in requirements ==>
      exists s :: s in stages
        && (if s.order in orders then orders[s.order].environment else "") == q.environment
        && s.soakSeconds >= q.minSoakSeconds
  }

  function UpstreamsOf(orders: map<string, UpstreamOrder>): map<string, G.Upstream> {
    map o | o in orders :: orders[o].upstream
  }

  function RequestOf(candidate: Preparation, self: History, r: Reads): G.Request
    requires r.orders.Some?
  {
    G.Request(candidate.name, r.product, candidate.revision, candidate.stages, self, UpstreamsOf(r.orders.value), r.now)
  }

  /** The verification of the first of the records that does not verify. */
  function FirstFailure(qualified: seq<G.Qualified>, records: map<G.Qualified, Verification>): (v: Verification)
    ensures v == Verifies <==> forall q :: q in qualified ==> q in records && records[q] == Verifies
  {
    if qualified == [] then Verifies
    else if qualified[0] !in records then Unreadable
    else if records[qualified[0]] != Verifies then records[qualified[0]]
    else FirstFailure(qualified[1..], records)
  }

  /** The upstream gate of candidate; None is an error. */
  function UpstreamOf(candidate: Preparation, self: History, r: Reads): Option<Upstream> {
    var known := PromotedBefore(self, candidate.name).Some?;
    if !known && r.requirements.None? then None
    else if candidate.stages == [] && (known || r.requirements.value == []) then Some(NoneRequired)
    else if r.orders.None? then None
    else if !known && !RequirementsMet(candidate.stages, r.orders.value, r.requirements.value) then Some(Requires)
    else
      var result := G.ResultOf(RequestOf(candidate, self, r));
      if result.outcome != G.Satisfied then Some(Holds(result))
      else
        match FirstFailure(result.qualified, r.records)
        case Verifies => Some(Passes(result))
        case Rejected => Some(RecordRejected)
        case Unreadable => None
  }

  predicate IsTarget(current: bool, upstream: Upstream, checks: Checks) {
    current || (upstream.Satisfied() && checks.passed)
  }

  /** Whether candidate passes its approval gate. */
  predicate Admits(candidate: Preparation, approvals: seq<Approval>) {
    !A.GateOf(candidate, A.EvaluationOf(candidate, approvals)).blocked
  }

  function ApprovalsEvidence(candidate: Preparation): Option<string> {
    var a := candidate.status.approval;
    if candidate.policy.Some? && a.Some? && a.value.attestation.Some? then Some(a.value.attestation.value.digest) else None
  }

  function GatesOf(candidate: Preparation, upstream: Upstream, checks: Checks): Gates {
    Gates(ApprovalsEvidence(candidate), EvidenceOf(candidate.stages, upstream.Result()), checks.evidence)
  }

  /** What becomes of an approved target, as its evidence verifies. */
  function AdvanceOf(step: Step, candidate: Preparation, upstream: Upstream, checks: Checks, r: Reads): Decision {
    if r.evidence.None? then Failed
    else if step == StepDeployed then Keeps
    else if !r.evidence.value then AwaitsEvidence
    else if step == StepOpen then Opens
    else Starts(GatesOf(candidate, upstream, checks))
  }

  /** What becomes of a candidate that was read with its gates. */
  function GatedOf(step: Step, candidate: Preparation, upstream: Upstream, checks: Checks, approvals: seq<Approval>, r: Reads): Decision {
    var current := step == StepDeployed;
    if !IsTarget(current, upstream, checks) then
      if !upstream.Satisfied() then AwaitsUpstream else HeldByChecks
    else if !Admits(candidate, approvals) && !current then AwaitsApproval
    else AdvanceOf(step, candidate, upstream, checks, r)
  }

  function DecisionOf(h: History, candidate: Preparation, r: Reads): Decision {
    var step, upstream := Next(h, candidate.name), UpstreamOf(candidate, Drop(h), r);
    if !candidate.status.evidence then NotReady
    else if upstream.None? || r.checks.None? || r.approvals.None? then Failed
    else GatedOf(step, candidate, upstream.value, r.checks.value, r.approvals.value, r)
  }

  function EntryOf(p: Preparation): Entry {
    Entry(p.name, p.digest, p.ociRef, p.registry, p.revision, 0, 0, 0, NotEnded, "", "")
  }

  /** The operation on the history that a decision comes to, if any. */
  function OperationOf(d: Decision, candidate: Preparation, r: Reads): Option<Op> {
    match d
    case Failed => None
    case Opens => Some(OpOpen(EntryOf(candidate), r.now))
    case Starts(_) => if r.pushed.Some? then Some(OpStart(r.pushed.value)) else None
    case _ => Some(OpDrop)
  }

  function After(h: History, op: Option<Op>): History {
    if op.Some? then Apply(h, op.value) else h
  }

  function PromotedHistory(h: History, candidate: Preparation, r: Reads): History {
    After(h, OperationOf(DecisionOf(h, candidate, r), candidate, r))
  }

  /** The statement a promotion pushes. */
  function PushedStatement(order: string, h: History, d: Decision, mode: string): Option<Statement> {
    if d.Starts? then PromotionOf(order, mode, h, d.gates) else None
  }

  /** The target of the Serving after it considered candidate. */
  function TargetOf(was: string, h: History, candidate: Preparation, r: Reads): string {
    var upstream := UpstreamOf(candidate, Drop(h), r);
    if !candidate.status.evidence then ""
    else if upstream.None? || r.checks.None? || r.approvals.None? then was
    else if IsTarget(Next(h, candidate.name) == StepDeployed, upstream.value, r.checks.value) then candidate.name
    else ""
  }

  // ----------------------------------------------------- deploying: specification

  /** What became of recording a deployment that was healthy. */
  datatype Recording = PreparationGone | NotPushed | RecordPushed(digest: string)

  /** What a reconcile reads as it deploys; None is an error. */
  datatype DeployReads = DeployReads(
    orderFound: bool,
    preparation: Option<bool>,
    admitted: Option<bool>,
    applied: bool,
    observation: Observation,
    signing: bool,
    recordings: map<Entry, Recording>,
    now: Time)

  /** Whether the reconcile gets to apply the Applications. */
  predicate Deploys(h: History, r: DeployReads) {
    Deployed(h).Some? && r.orderFound && r.preparation == Some(true) && r.admitted == Some(true)
  }

  /** What becomes of the Applications: they stay as they are, are removed when the
      Order may not deploy any more, or point at what is deployed. */
  datatype Apps = AppsStay | AppsRemoved | AppsPointAt(deployed: Entry)

  function AppsOf(h: History, r: DeployReads): Apps {
    if Deployed(h).None? || !r.orderFound || r.preparation != Some(true) || r.admitted.None? then AppsStay
    else if !r.admitted.value then AppsRemoved
    else AppsPointAt(Deployed(h).value)
  }

  /** h after the recordings of todo; None when one was not pushed. */
  function RecordedAll(h: History, todo: seq<Entry>, recordings: map<Entry, Recording>): Option<History>
    decreases |todo|
  {
    if todo == [] then Some(h)
    else if todo[0] !in recordings then None
    else
      match recordings[todo[0]]
      case PreparationGone => RecordedAll(h, todo[1..], recordings)
      case NotPushed => None
      case RecordPushed(digest) =>
        RecordedAll(DeploymentRecorded(h, todo[0].digest, todo[0].healthy, digest), todo[1..], recordings)
  }

  /** An error leaves the history as it was, whatever was pushed. */
  function RecordedHistory(h: History, r: DeployReads): History {
    var recorded := RecordedAll(h, UnrecordedOf(h), r.recordings);
    if r.signing && recorded.Some? then recorded.value else h
  }

  function DeployedHistory(h: History, r: DeployReads): History {
    if !Deploys(h, r) || !r.applied then h
    else if Observed(h, r.observation, r.now) != h then Observed(h, r.observation, r.now)
    else RecordedHistory(h, r)
  }

  // --------------------------------------------------------- implementation

  class Serving {
    const orderName: string
    var history: History
    var target: string

    constructor (orderName: string, history: History, target: string)
      ensures this.orderName == orderName && this.history == history && this.target == target
    {
      this.orderName, this.history, this.target := orderName, history, target;
    }

    /** Decides on candidate, and takes the next step of its promotion. Returns
        the statement it pushed. */
    method Promote(candidate: Preparation, r: Reads) returns (decision: Decision, pushed: Option<Statement>)
      requires ValidReads(r)
      modifies this
      ensures decision == DecisionOf(old(history), candidate, r)
      ensures history == PromotedHistory(old(history), candidate, r)
      ensures target == TargetOf(old(target), old(history), candidate, r)
      ensures pushed == PushedStatement(orderName, old(history), decision, r.mode)
    {
      pushed := None;
      var step := Next(history, candidate.name);
      if !candidate.status.evidence {
        target := "";
        history := Drop(history);
        return NotReady, None;
      }
      var upstream := EvaluateUpstream(candidate, Drop(history), r);
      if upstream.None? || r.checks.None? {
        return Failed, None;
      }
      if r.approvals.None? {
        return Failed, None;
      }
      decision, pushed := PassGates(step, candidate, upstream.value, r.checks.value, r);
    }

    /** Makes candidate the target, or not, and goes on with it when it passes. */
    method PassGates(step: Step, candidate: Preparation, upstream: Upstream, checks: Checks, r: Reads)
      returns (decision: Decision, pushed: Option<Statement>)
      requires r.approvals.Some? && A.UniqueNames(r.approvals.value)
      modifies this
      ensures decision == GatedOf(step, candidate, upstream, checks, r.approvals.value, r)
      ensures history == After(old(history), OperationOf(decision, candidate, r))
      ensures target == if IsTarget(step == StepDeployed, upstream, checks) then candidate.name else ""
      ensures pushed == PushedStatement(orderName, old(history), decision, r.mode)
    {
      var current := step == StepDeployed;
      var isTarget := current || (upstream.Satisfied() && checks.passed);
      var approved := PassesGate(candidate, r.approvals.value, isTarget);
      if !isTarget {
        history := Drop(history);
        return if upstream.Satisfied() then HeldByChecks else AwaitsUpstream, None;
      }
      if !approved && !current {
        history := Drop(history);
        return AwaitsApproval, None;
      }
      decision, pushed := Advance(step, candidate, upstream, checks, r);
    }

    /** Takes the next step of the promotion of an approved target. */
    method Advance(step: Step, candidate: Preparation, upstream: Upstream, checks: Checks, r: Reads)
      returns (decision: Decision, pushed: Option<Statement>)
      modifies this`history
      ensures decision == AdvanceOf(step, candidate, upstream, checks, r)
      ensures history == After(old(history), OperationOf(decision, candidate, r))
      ensures pushed == PushedStatement(orderName, old(history), decision, r.mode)
    {
      pushed := None;
      if r.evidence.None? {
        return Failed, None;
      }
      if step == StepDeployed {
        history := Drop(history);
        return Keeps, None;
      }
      if !r.evidence.value {
        history := Drop(history);
        return AwaitsEvidence, None;
      }
      if step == StepOpen {
        history := Open(history, EntryOf(candidate), r.now);
        return Opens, None;
      }
      var gates;
      gates, pushed := RecordAndStart(candidate, upstream, checks, r);
      decision := Starts(gates);
    }

    /** Records the promotion of the pending entry, and starts it. */
    method RecordAndStart(candidate: Preparation, upstream: Upstream, checks: Checks, r: Reads)
      returns (gates: Gates, pushed: Option<Statement>)
      modifies this`history
      ensures gates == GatesOf(candidate, upstream, checks)
      ensures pushed == PromotionOf(orderName, r.mode, old(history), gates)
      ensures history == if r.pushed.Some? then Started(old(history), r.pushed.value) else old(history)
    {
      gates, pushed := RecordPromotion(candidate, upstream, checks, r.mode);
      if r.pushed.Some? {
        history := Start(history, r.pushed.value);
      }
    }

    /** The upstream gate: what the Environment requires, what the stages ran,
        and that the records of it verify. */
    method EvaluateUpstream(candidate: Preparation, self: History, r: Reads) returns (upstream: Option<Upstream>)
      ensures upstream == UpstreamOf(candidate, self, r)
    {
      var requirements: seq<Requirement> := [];
      if PromotedBefore(self, candidate.name).None? {
        if r.requirements.None? {
          return None;
        }
        requirements := r.requirements.value;
      }
      if |candidate.stages| == 0 && |requirements| == 0 {
        return Some(NoneRequired);
      }
      if r.orders.None? {
        return None;
      }
      if !RequirementsMet(candidate.stages, r.orders.value, requirements) {
        return Some(Requires);
      }
      var result := G.Evaluate(RequestOf(candidate, self, r));
      if result.outcome != G.Satisfied {
        return Some(Holds(result));
      }
      var i := 0;
      while i < |result.qualified|
        invariant i <= |result.qualified|
        invariant FirstFailure(result.qualified, r.records) == FirstFailure(result.qualified[i..], r.records)
      {
        var q := result.qualified[i];
        assert result.qualified[i..][0] == q && result.qualified[i..][1..] == result.qualified[i + 1..];
        if q !in r.records || r.records[q] == Unreadable {
          return None;
        }
        if r.records[q] == Rejected {
          return Some(RecordRejected);
        }
        i := i + 1;
      }
      return Some(Passes(result));
    }

    /** The approval gate. Only the target gets its votes sealed. */
    method PassesGate(candidate: Preparation, approvals: seq<Approval>, isTarget: bool) returns (approved: bool)
      requires A.UniqueNames(approvals)
      modifies this`target
      ensures target == if isTarget then candidate.name else ""
      ensures approved == if isTarget then Admits(candidate, approvals) else A.EvaluationOf(candidate, approvals).approved
    {
      if !isTarget {
        target := "";
        var res, _ := A.Evaluate(candidate, approvals);
        return res.approved;
      }
      var gate := A.Gate(candidate, approvals);
      target := candidate.name;
      approved := !gate.blocked;
    }

    /** The record of the pending entry, with the evidence of every gate. */
    method RecordPromotion(candidate: Preparation, upstream: Upstream, checks: Checks, mode: string)
      returns (gates: Gates, statement: Option<Statement>)
      ensures gates == GatesOf(candidate, upstream, checks)
      ensures statement == PromotionOf(orderName, mode, history, gates)
    {
      var after := StageEvidenceOf(candidate.stages, upstream.Result());
      gates := Gates(None, after, checks.evidence);
      if candidate.policy.Some? && candidate.status.approval.Some? && candidate.status.approval.value.attestation.Some? {
        gates := gates.(approvals := Some(candidate.status.approval.value.attestation.value.digest));
      }
      statement := PromotionOf(orderName, mode, history, gates);
    }

    /** Points the Applications at what is deployed, and records what they
        report; removes them when the Order may not deploy. Returns what becomes
        of them, as far as the engine gets. */
    method Deploy(r: DeployReads) returns (apps: Apps)
      requires IsSet(Seconds(r.now))
      modifies this`history
      ensures history == DeployedHistory(old(history), r)
      ensures apps == AppsOf(old(history), r)
      ensures apps.AppsPointAt? <==> Deploys(old(history), r)
      ensures !apps.AppsPointAt? ==> history == old(history)
    {
      var deployed := Deployed(history);
      if deployed.None? || !r.orderFound {
        return AppsStay;
      }
      if r.preparation != Some(true) {
        return AppsStay;
      }
      if r.admitted.None? {
        return AppsStay;
      }
      if !r.admitted.value {
        return AppsRemoved;
      }
      apps := AppsPointAt(deployed.value);
      if !r.applied {
        return;
      }
      var observed, changed := Observe(history, r.observation, r.now);
      if changed {
        history := observed;
        return;
      }
      RecordDeployments(r);
    }

    /** Records every deployment that was healthy and is not recorded yet. */
    method RecordDeployments(r: DeployReads)
      modifies this`history
      ensures history == RecordedHistory(old(history), r)
    {
      var unrecorded := Unrecorded(history);
      if |unrecorded| == 0 {
        return;
      }
      if !r.signing {
        return;
      }
      var recorded := history;
      var i := 0;
      while i < |unrecorded|
        invariant i <= |unrecorded| && history == old(history)
        invariant RecordedAll(history, unrecorded, r.recordings) == RecordedAll(recorded, unrecorded[i..], r.recordings)
      {
        var e := unrecorded[i];
        assert unrecorded[i..][0] == e && unrecorded[i..][1..] == unrecorded[i + 1..];
        if e !in r.recordings || r.recordings[e].NotPushed? {
          return;
        }
        if r.recordings[e].RecordPushed? {
          recorded := RecordDeployment(recorded, e.digest, e.healthy, r.recordings[e].digest);
        }
        i := i + 1;
      }
      history := recorded;
    }
  }
}
