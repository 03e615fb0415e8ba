/** The promotion protocol of many stages: reconciles of their Servings read any
    version of the histories, crash at any point, and patch a status only when
    it is still the version they read. */
module Promotions {
  import opened Options
  import opened Times
  import opened Histories
  import opened HistoryRuns
  import opened Soak
  import opened Records
  import opened Preparations
  import opened Servings
  import G = Gate

  /** What the Applications of a stage point at: an artifact, and the record of
      the promotion that deployed it. */
  datatype App = App(digest: string, record: string)

  /** A history with the identity of every entry. */
  type Identities = t: Tracked | |t.ids| == |t.h| witness Empty

  /** How far a reconcile is. As it records deployments it holds the ones left
      to record, and the history with those it recorded. */
  datatype Phase = Promoting | Applying | Observing | Recording(todo: seq<Entry>, recorded: Identities) | Done

  /** A reconcile in flight: the stage, the version it read, and the history it
      has come to. */
  datatype Pass = Pass(stage: string, base: nat, working: Identities, phase: Phase)

  /** A promotion record was pushed: by a reconcile of stage that had read the
      version base, of the pending entry, with the version it read of each
      upstream Order's history. */
  datatype Event = Event(
    stage: string,
    base: nat,
    entry: Entry,
    record: string,
    stages: seq<G.Stage>,
    at: Time,
    read: map<string, nat>)

  type Versions = map<string, seq<Identities>>

  datatype State = State(
    clock: Time,
    versions: Versions,
    passes: seq<Pass>,
    apps: map<string, App>,
    registry: map<string, Statement>,
    log: seq<Event>)

  /** The steps; written is the digest under which a record was pushed, even
      when the reconcile did not learn of it. */
  datatype Step =
    | Tick(to: Time)
    | Read(stage: string, v: nat)
    | Idle(pass: nat)
    | Skip(pass: nat)
    | Promote(pass: nat, candidate: Preparation, r: Reads, read: map<string, nat>, written: Option<string>)
    | Deploy(pass: nat)
    | Undeploy(pass: nat)
    | Report(pass: nat, o: Observation)
    | Record(pass: nat, recording: Recording, targets: seq<Target>, written: Option<string>)
    | Finish(pass: nat)
    | Commit(pass: nat)
    | Abandon(pass: nat)
    | Recreate(stage: string)

  /** The stages of the pipeline, with nothing deployed. */
  function Initial(stages: set<string>, clock: Time): State {
    State(clock, map s | s in stages :: [Empty], [], map[], map[], [])
  }

  // ------------------------------------------------------------------- reading

  /** The version of the history of an upstream Order that was read, if the
      Order has a Serving. */
  function HistoryRead(versions: Versions, read: map<string, nat>, order: string): History {
    if order in versions && order in read && read[order] < |versions[order]| then versions[order][read[order]].h else []
  }

  /** What was read of upstream Orders is some version of their histories. */
  predicate ReadsVersions(versions: Versions, read: map<string, nat>, orders: map<string, UpstreamOrder>) {
    forall o :: o in orders ==> orders[o].upstream.history == HistoryRead(versions, read, o)
  }

  /** A record that verifies is in the registry and attests the deployment. */
  predicate Attests(registry: map<string, Statement>, order: string, e: Entry) {
    && e.deploymentRecord in registry
    && registry[e.deploymentRecord].DeploymentRecord?
    && VerifyDeployment(registry[e.deploymentRecord], order, e).None?
  }

  predicate RecordsVerify(registry: map<string, Statement>, records: map<G.Qualified, Verification>) {
    forall q :: q in records && records[q] == Verifies ==> Attests(registry, q.stage.order, q.entry)
  }

  predicate MayWrite(registry: map<string, Statement>, statement: Option<Statement>, written: Option<string>) {
    written.Some? ==> statement.Some? && PushedAs(registry, statement.value, written.value)
  }

  /** The statement the reconcile pushes as it promotes candidate. */
  function Promotes(pass: Pass, candidate: Preparation, r: Reads): Option<Statement> {
    PushedStatement(pass.stage, pass.working.h, DecisionOf(pass.working.h, candidate, r), r.mode)
  }

  /** The candidate is a Preparation as it was created, with any status. */
  predicate IsCandidate(config: map<string, Preparation>, candidate: Preparation) {
    candidate.name in config && candidate == config[candidate.name].(status := candidate.status)
  }

  // --------------------------------------------------------------------- steps

  predicate InPhase(s: State, p: nat, phase: Phase) {
    p < |s.passes| && s.passes[p].phase == phase
  }

  predicate MayPromote(config: map<string, Preparation>, s: State, p: nat, candidate: Preparation, r: Reads, read: map<string, nat>, written: Option<string>) {
    && InPhase(s, p, Promoting)
    && IsCandidate(config, candidate)
    && r.now == s.clock
    && (r.orders.Some? ==> ReadsVersions(s.versions, read, r.orders.value))
    && RecordsVerify(s.registry, r.records)
    && MayWrite(s.registry, Promotes(s.passes[p], candidate, r), written)
    && (r.pushed.Some? && Promotes(s.passes[p], candidate, r).Some? ==> written == r.pushed)
  }

  predicate IsRecording(s: State, p: nat) {
    p < |s.passes| && s.passes[p].phase.Recording?
  }

  predicate MayRecord(s: State, p: nat, recording: Recording, targets: seq<Target>, written: Option<string>) {
    && IsRecording(s, p) && s.passes[p].phase.todo != []
    && MayWrite(s.registry, DeploymentStatement(s.passes[p].stage, s.passes[p].phase.todo[0], targets), written)
    && (recording.RecordPushed? ==> written == Some(recording.digest))
  }

  predicate Enabled(config: map<string, Preparation>, s: State, step: Step) {
    match step
    case Tick(to) => to >= s.clock
    case Read(stage, v) => stage in s.versions && v < |s.versions[stage]|
    case Idle(p) => InPhase(s, p, Promoting)
    case Skip(p) => InPhase(s, p, Promoting)
    case Promote(p, candidate, r, read, written) => MayPromote(config, s, p, candidate, r, read, written)
    case Deploy(p) => InPhase(s, p, Applying) && Deployed(s.passes[p].working.h).Some?
    case Undeploy(p) => InPhase(s, p, Applying) && Deployed(s.passes[p].working.h).Some?
    case Report(p, o) => InPhase(s, p, Observing)
    case Record(p, recording, targets, written) => MayRecord(s, p, recording, targets, written)
    case Finish(p) => IsRecording(s, p) && s.passes[p].phase.todo == []
    case Commit(p) => p < |s.passes| && s.passes[p].stage in s.versions
    case Abandon(p) => p < |s.passes|
    case Recreate(stage) => stage in s.versions && s.versions[stage] != []
  }

  function TrackOp(t: Identities, op: Option<Op>): (r: Identities)
    ensures r.h == After(t.h, op)
  {
    if op.Some? then Track(t, op.value) else t
  }

  function Write(registry: map<string, Statement>, statement: Option<Statement>, written: Option<string>): map<string, Statement> {
    if written.Some? && statement.Some? then registry[written.value := statement.value] else registry
  }

  /** Where a reconcile is after it observed: it records deployments only when
      nothing it observed is new. */
  function Observes(pass: Pass, o: Observation, now: Time): Pass
  {
    var t := Track(pass.working, OpObserve(o, now));
    if t.h != pass.working.h then pass.(working := t, phase := Done)
    else pass.(working := t, phase := Recording(UnrecordedOf(t.h), t))
  }

  function RecordsOne(pass: Pass, recording: Recording): Pass
    requires pass.phase.Recording? && pass.phase.todo != []
  {
    var e, t := pass.phase.todo[0], pass.phase.recorded;
    match recording
    case PreparationGone => pass.(phase := Recording(pass.phase.todo[1..], t))
    case NotPushed => pass.(phase := Done)
    case RecordPushed(digest) => pass.(phase := Recording(pass.phase.todo[1..], Track(t, OpRecord(e.digest, e.healthy, digest))))
  }

  function Without(passes: seq<Pass>, p: nat): seq<Pass>
    requires p < |passes|
  {
    passes[..p] + passes[p + 1..]
  }

  /** What a promotion that is recorded adds to the log. */
  function EventOf(s: State, pass: Pass, candidate: Preparation, read: map<string, nat>, record: string): Event
    requires pass.working.h != []
  {
    Event(pass.stage, pass.base, pass.working.h[0], record, candidate.stages, s.clock, read)
  }

  function TakePromote(s: State, p: nat, candidate: Preparation, r: Reads, read: map<string, nat>, written: Option<string>): State
    requires p < |s.passes| && MayWrite(s.registry, Promotes(s.passes[p], candidate, r), written)
  {
    var pass := s.passes[p];
    var op := OperationOf(DecisionOf(pass.working.h, candidate, r), candidate, r);
    var t := s.(passes := s.passes[p := pass.(working := TrackOp(pass.working, op), phase := Applying)]);
    if written.None? then t
    else
      t.(registry := Write(s.registry, Promotes(pass, candidate, r), written),
      log := s.log + [EventOf(s, pass, candidate, read, written.value)])
  }

  function TakeDeploy(s: State, p: nat): State
    requires p < |s.passes| && Deployed(s.passes[p].working.h).Some?
  {
    var pass := s.passes[p];
    var e := Deployed(pass.working.h).value;
    s.(passes := s.passes[p := pass.(phase := Observing)], apps := s.apps[pass.stage := App(e.digest, e.promotionRecord)])
  }

  /** The Order may not deploy any more: its Applications are removed. */
  function TakeUndeploy(s: State, p: nat): State
    requires p < |s.passes|
  {
    s.(passes := s.passes[p := s.passes[p].(phase := Done)], apps := s.apps - {s.passes[p].stage})
  }

  function TakeRecord(s: State, p: nat, recording: Recording, targets: seq<Target>, written: Option<string>): State
    requires MayRecord(s, p, recording, targets, written)
  {
    var pass := s.passes[p];
    s.(passes := s.passes[p := RecordsOne(pass, recording)],
    registry := Write(s.registry, DeploymentStatement(pass.stage, pass.phase.todo[0], targets), written))
  }

  /** A patch commits only against the version the reconcile read. */
  function TakeCommit(s: State, p: nat): State
    requires p < |s.passes| && s.passes[p].stage in s.versions
  {
    var pass := s.passes[p];
    var known := s.versions[pass.stage];
    if pass.base + 1 != |known| then s.(passes := Without(s.passes, p))
    else s.(passes := Without(s.passes, p), versions := s.versions[pass.stage := known + [pass.working]])
  }

  /** The Serving is deleted and created again, with an empty history. */
  function TakeRecreate(s: State, stage: string): State
    requires stage in s.versions && s.versions[stage] != []
  {
    var known := s.versions[stage];
    var last := known[|known| - 1];
    s.(versions := s.versions[stage := known + [Tracked([], [], last.next, last.log)]])
  }

  function Take(config: map<string, Preparation>, s: State, step: Step): State
    requires Enabled(config, s, step)
  {
    match step
    case Tick(to) => s.(clock := to)
    case Read(stage, v) => s.(passes := s.passes + [Pass(stage, v, s.versions[stage][v], Promoting)])
    case Idle(p) => s.(passes := s.passes[p := s.passes[p].(working := Track(s.passes[p].working, OpDrop), phase := Applying)])
    case Skip(p) => s.(passes := s.passes[p := s.passes[p].(phase := Applying)])
    case Promote(p, candidate, r, read, written) => TakePromote(s, p, candidate, r, read, written)
    case Deploy(p) => TakeDeploy(s, p)
    case Undeploy(p) => TakeUndeploy(s, p)
    case Report(p, o) => s.(passes := s.passes[p := Observes(s.passes[p], o, s.clock)])
    case Record(p, recording, targets, written) => TakeRecord(s, p, recording, targets, written)
    case Finish(p) => s.(passes := s.passes[p := s.passes[p].(working := s.passes[p].phase.recorded, phase := Done)])
    case Commit(p) => TakeCommit(s, p)
    case Abandon(p) => s.(passes := Without(s.passes, p))
    case Recreate(stage) => TakeRecreate(s, stage)
  }
}
