/** Runs of the sealing protocol: votes arrive at any time, reconciles read any
    version of the Preparation and stale lists of votes, crash at any point, and
    patch its status only when it is still the version they read. */
module SealingRuns {
  import opened Options
  import opened Preparations
  import opened Records
  import opened Approvals
  import opened SealingPreserves
  import opened Attestations
  import opened Sealing

  /** A reconcile in flight: the version it read, and once it is done the status
      to patch and how many votes there were. */
  datatype Pass = Reading(base: nat) | Patching(base: nat, result: PreparationStatus, seen: nat)

  /** The Preparation, the votes on it in the order of their creation, every
      version of its status, the reconciles in flight, the statements in the
      registry by digest, and the versions that a Serving promoted. sealedFrom
      says how many votes there were when the votes that are sealed were read. */
  datatype State = State(
    spec: Preparation,
    votes: seq<Approval>,
    versions: seq<PreparationStatus>,
    passes: seq<Pass>,
    registry: map<string, ApprovalStatement>,
    promoted: seq<nat>,
    sealedFrom: nat)
  {
    function At(v: nat): Preparation
      requires v < |versions|
    {
      WithStatus(spec, versions[v])
    }

    function Last(): Preparation
      requires versions != []
    {
      At(|versions| - 1)
    }
  }

  datatype Step =
    | Cast(a: Approval)
    | Read(v: nat)
    | Finish(pass: nat, r: Reads, written: Option<string>)
    | Commit(pass: nat)
    | Abandon(pass: nat)
    | Promote(v: nat, cached: seq<Approval>)

  function Initial(spec: Preparation): State {
    State(spec, [], [PreparationStatus(false, false, None, false)], [], map[], [], 0)
  }

  /** What a reconcile that read prep archives. */
  function ArchivedStatement(prep: Preparation, r: Reads): Built {
    if prep.status.evidence && r.cached.Some? && r.listed.Some? && (r.archiving.Pushed? || r.archiving.PushFailed?) then
      var marked := WithStatus(prep, Marked(prep.status, EvaluationOf(prep, r.cached.value)));
      if Archives(marked) then BuiltOf(marked, r.listed.value) else NotSealed
    else NotSealed
  }

  /** A push of a statement the registry has finds it, and any other gets a
      digest of its own; the statement of a push that failed may be written. */
  predicate WrittenAs(registry: map<string, ApprovalStatement>, built: Built, archiving: Archiving, written: Option<string>) {
    && (written.Some? ==> built.Built? && PushedAs(registry, built.statement, written.value))
    && (archiving.Pushed? && built.Built? ==> written == Some(archiving.digest))
  }

  predicate Enabled(s: State, step: Step) {
    match step
    case Cast(a) => a.name !in NamesIn(s.votes)
    case Read(v) => v < |s.versions|
    case Finish(p, r, written) =>
      && p < |s.passes| && s.passes[p].Reading? && s.passes[p].base < |s.versions|
      && (r.cached.Some? ==> UniqueNames(r.cached.value) && Includes(s.votes, r.cached.value))
      && (r.listed.Some? ==> multiset(r.listed.value) == multiset(s.votes))
      && WrittenAs(s.registry, ArchivedStatement(s.At(s.passes[p].base), r), r.archiving, written)
    case Commit(p) => p < |s.passes| && s.passes[p].Patching?
    case Abandon(p) => p < |s.passes|
    case Promote(v, cached) =>
      && v < |s.versions| && UniqueNames(cached) && Includes(s.votes, cached)
      && !GateOf(s.At(v), EvaluationOf(s.At(v), cached)).blocked
  }

  function Without(passes: seq<Pass>, p: nat): seq<Pass>
    requires p < |passes|
  {
    passes[..p] + passes[p + 1..]
  }

  function Apply(s: State, step: Step): State
    requires Enabled(s, step)
  {
    match step
    case Cast(a) => s.(votes := s.votes + [a])
    case Read(v) => s.(passes := s.passes + [Reading(v)])
    case Finish(p, r, written) =>
      var prep := s.At(s.passes[p].base);
      s.(passes := s.passes[p := Patching(s.passes[p].base, ReconcileOf(prep, r), |s.votes|)],
      registry := if written.Some? then s.registry[written.value := ArchivedStatement(prep, r).statement] else s.registry)
    case Commit(p) =>
      var pass := s.passes[p];
      if pass.base + 1 != |s.versions| then s.(passes := Without(s.passes, p))
      else
        var seals := !IsSealed(s.Last()) && IsSealed(WithStatus(s.spec, pass.result));
        s.(passes := Without(s.passes, p), versions := s.versions + [pass.result],
        sealedFrom := if seals then pass.seen else s.sealedFrom)
    case Abandon(p) => s.(passes := Without(s.passes, p))
    case Promote(v, _) => s.(promoted := s.promoted + [v])
  }

  /** The states a run goes through from when spec was created. */
  predicate IsRun(spec: Preparation, steps: seq<Step>, states: seq<State>) {
    && |states| == |steps| + 1
    && states[0] == Initial(spec)
    && forall i :: 0 <= i < |steps| ==> Enabled(states[i], steps[i]) && states[i + 1] == Apply(states[i], steps[i])
  }

  // ------------------------------------------------------------- the invariant

  predicate VersionsOk(spec: Preparation, versions: seq<PreparationStatus>) {
    && versions != []
    && (forall v :: 0 <= v < |versions| ==> StatusOk(WithStatus(spec, versions[v])))
    && (forall v, w :: 0 <= v < w < |versions| ==> Follows(WithStatus(spec, versions[v]), WithStatus(spec, versions[w])))
  }

  predicate PassOk(spec: Preparation, versions: seq<PreparationStatus>, pass: Pass) {
    && pass.base < |versions|
    && (pass.Patching? ==> StatusOk(WithStatus(spec, pass.result)) && Follows(WithStatus(spec, versions[pass.base]), WithStatus(spec, pass.result)))
  }

  predicate PassesOk(spec: Preparation, versions: seq<PreparationStatus>, passes: seq<Pass>) {
    forall p :: 0 <= p < |passes| ==> PassOk(spec, versions, passes[p])
  }

  predicate PromotedOk(spec: Preparation, versions: seq<PreparationStatus>, promoted: seq<nat>) {
    forall i :: 0 <= i < |promoted| ==>
      promoted[i] < |versions| && (spec.policy.Some? ==> IsArchived(WithStatus(spec, versions[promoted[i]])))
  }

  predicate Inv(s: State) {
    && UniqueNames(s.votes)
    && VersionsOk(s.spec, s.versions)
    && PassesOk(s.spec, s.versions, s.passes)
    && PromotedOk(s.spec, s.versions, s.promoted)
  }

  lemma {:induction false} CastKeepsUnique(votes: seq<Approval>, a: Approval)
    requires UniqueNames(votes) && a.name !in NamesIn(votes)
    ensures UniqueNames(votes + [a])
  {
    assert NamesIn(votes + [a]) == NamesIn(votes) + [a.name];
  }

  lemma {:induction false} FollowsIsTransitive(a: Preparation, b: Preparation, c: Preparation)
    requires Follows(a, b) && Follows(b, c)
    ensures Follows(a, c)
  {
  }

  /** One more version that follows the last keeps what the others are. */
  lemma {:induction false} VersionAdded(spec: Preparation, versions: seq<PreparationStatus>, result: PreparationStatus)
    requires VersionsOk(spec, versions) && StatusOk(WithStatus(spec, result))
    requires Follows(WithStatus(spec, versions[|versions| - 1]), WithStatus(spec, result))
    ensures VersionsOk(spec, versions + [result])
  {
    var more, last := versions + [result], |versions| - 1;
    forall v, w | 0 <= v < w < |more| ensures Follows(WithStatus(spec, more[v]), WithStatus(spec, more[w])) {
      if v < last && w == |versions| {
        FollowsIsTransitive(WithStatus(spec, versions[v]), WithStatus(spec, versions[last]), WithStatus(spec, result));
      }
    }
  }

  lemma {:induction false} FinishKeeps(s: State, p: nat, r: Reads, written: Option<string>)
    requires Inv(s) && Enabled(s, Finish(p, r, written))
    ensures Inv(Apply(s, Finish(p, r, written)))
  {
    assert PassOk(s.spec, s.versions, s.passes[p]);
    ReconcileKeeps(s.At(s.passes[p].base), r);
  }

  lemma {:induction false} StepKeeps(s: State, step: Step)
    requires Inv(s) && Enabled(s, step)
    ensures Inv(Apply(s, step))
  {
    match step
    case Cast(a) => CastKeepsUnique(s.votes, a);
    case Read(v) =>
    case Finish(p, r, written) => FinishKeeps(s, p, r, written);
    case Commit(p) =>
      assert PassOk(s.spec, s.versions, s.passes[p]);
      if s.passes[p].base + 1 == |s.versions| {
        VersionAdded(s.spec, s.versions, s.passes[p].result);
      }
    case Abandon(p) =>
    case Promote(_, _) =>
  }

  lemma {:induction false} RunKeeps(spec: Preparation, steps: seq<Step>, states: seq<State>, k: nat)
    requires IsRun(spec, steps, states) && k < |states|
    ensures Inv(states[k]) && states[k].spec == spec
  {
    if k > 0 {
      RunKeeps(spec, steps, states, k - 1);
      StepKeeps(states[k - 1], steps[k - 1]);
    }
  }

  // ---------------------------------------------------------- once and for all

  /** In every state of every run: a version after one with sealed votes has the
      same sealed votes and seal time, and the same attestation once there is
      one; sealed votes approve whatever else was cast; only sealed votes are
      attested; and a Preparation with a policy is promoted only with its votes
      sealed and archived, as every later version has them. */
  lemma {:induction false} SealsAreFinal(spec: Preparation, steps: seq<Step>, states: seq<State>, k: nat)
    requires IsRun(spec, steps, states) && k < |states|
    ensures var s := states[k];
            && (forall v, w :: 0 <= v < w < |s.versions| ==> Follows(s.At(v), s.At(w)))
            && (forall v, approvals :: 0 <= v < |s.versions| && IsSealed(s.At(v)) ==> EvaluationOf(s.At(v), approvals).approved)
            && (forall v :: 0 <= v < |s.versions| && s.versions[v].approval.Some? && s.versions[v].approval.value.attestation.Some? ==>
                  IsSealed(s.At(v)))
            && (forall i, w :: 0 <= i < |s.promoted| && s.promoted[i] <= w < |s.versions| && spec.policy.Some? ==>
                  IsSealed(s.At(w)) && SealedStatus(s.At(w)).value.attestation.Some?)
  {
    RunKeeps(spec, steps, states, k);
    var s := states[k];
    forall v | 0 <= v < |s.versions| ensures StatusOk(s.At(v)) {
    }
    forall i, w | 0 <= i < |s.promoted| && s.promoted[i] <= w < |s.versions| && spec.policy.Some?
      ensures IsSealed(s.At(w)) && SealedStatus(s.At(w)).value.attestation.Some?
    {
      assert IsArchived(s.At(s.promoted[i]));
      assert s.promoted[i] < w ==> Follows(s.At(s.promoted[i]), s.At(w));
    }
  }

  /** The versions are all that ever were. */
  lemma {:induction false} VersionsGrow(spec: Preparation, steps: seq<Step>, states: seq<State>, k: nat, l: nat)
    requires IsRun(spec, steps, states) && k <= l < |states|
    ensures states[k].versions <= states[l].versions && states[k].votes <= states[l].votes
    decreases l - k
  {
    if k < l {
      VersionsGrow(spec, steps, states, k, l - 1);
      var was, step := states[l - 1], steps[l - 1];
      assert was.versions <= Apply(was, step).versions && was.votes <= Apply(was, step).votes;
    }
  }
}
