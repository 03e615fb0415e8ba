/** Every step of the promotion protocol keeps what holds. */
module PromotionSteps {
  import opened Options
  import opened Times
  import opened Histories
  import opened HistoryRuns
  import opened HistoryEntries
  import opened Soak
  import opened Records
  import opened Preparations
  import opened Servings
  import opened Promotions
  import opened PromotionInvariant
  import G = Gate
  import GP = GateProperties

  // ------------------------------------------------------------------ promoting

  /** What a decision to start a promotion was based on. */
  lemma {:induction false} StartsOn(h: History, candidate: Preparation, r: Reads)
    requires DecisionOf(h, candidate, r).Starts?
    ensures Pending(h).Some? && h[0].preparation == candidate.name
    ensures var u := UpstreamOf(candidate, Drop(h), r);
            && u.Some? && u.value.Satisfied()
            && DecisionOf(h, candidate, r).gates.after == EvidenceOf(candidate.stages, u.value.Result())
    ensures PushedStatement("", h, DecisionOf(h, candidate, r), r.mode).Some?
  {
  }

  /** What an upstream gate that was passed was based on. */
  lemma {:induction false} PassesOn(candidate: Preparation, self: History, r: Reads)
    requires UpstreamOf(candidate, self, r).Some? && UpstreamOf(candidate, self, r).value.Satisfied()
    requires candidate.stages != []
    ensures r.orders.Some?
    ensures var result := UpstreamOf(candidate, self, r).value.Result();
            && result == G.ResultOf(RequestOf(candidate, self, r)) && result.outcome == G.Satisfied
            && forall q :: q in result.qualified ==> q in r.records && r.records[q] == Verifies
  {
  }

  /** The upstream deployment that qualifies the revision for the stage at
      position i of candidate. */
  lemma {:induction false} UpstreamQualifies(config: Config, s: State, h: History, candidate: Preparation, r: Reads, read: map<string, nat>, i: nat)
    returns (j: nat, m: nat)
    requires VersionsOk(config, s.versions, s.log)
    requires r.now == s.clock && i < |candidate.stages|
    requires r.orders.Some? ==> ReadsVersions(s.versions, read, r.orders.value)
    requires RecordsVerify(s.registry, r.records)
    requires UpstreamOf(candidate, Drop(h), r).Some? && UpstreamOf(candidate, Drop(h), r).value.Satisfied()
    requires r.orders.Some? ==> !GP.PromotedHereBefore(RequestOf(candidate, Drop(h), r))
    ensures var order := candidate.stages[i].order;
            && order in s.versions && order in read && read[order] < |s.versions[order]|
            && var t := s.versions[order][read[order]];
               && j < |s.log| && Ran(t, s.registry, candidate.stages[i], candidate.revision, s.clock, s.log[j], m)
               && Uninterrupted(t, m)
               && EvidenceFor(candidate.stages, UpstreamOf(candidate, Drop(h), r).value.Result(), i) == EvidenceOn(candidate.stages[i], t.h[m])
  {
    PassesOn(candidate, Drop(h), r);
    var req := RequestOf(candidate, Drop(h), r);
    GP.QualifiedLinesUp(req);
    var order, q := candidate.stages[i].order, G.ResultOf(req).qualified[i];
    assert q in G.ResultOf(req).qualified;
    var hr := HistoryRead(s.versions, read, order);
    assert q.entry in hr;
    m :| 0 <= m < |hr| && hr[m] == q.entry;
    var t := s.versions[order][read[order]];
    assert HistoryOk(config, s.log, order, t);
    assert Logged(s.log, order, t.h[m]);
    j :| 0 <= j < |s.log| && IsOf(s.log[j], order, t.h[m]);
    QualifyingIsUninterrupted(t, m);
  }

  lemma {:induction false} PromotedIsLogged(log: seq<Event>, stage: string, h: History, e: Entry) returns (j: nat)
    requires AllLogged(log, stage, h) && e in h && e.Promoted()
    ensures j < |log| && log[j].stage == stage && log[j].entry.preparation == e.preparation
  {
    var i :| 0 <= i < |h| && h[i] == e;
    assert Logged(log, stage, h[i]);
    j :| 0 <= j < |log| && IsOf(log[j], stage, h[i]);
    assert Identity(e).preparation == Identity(log[j].entry.(promotionRecord := log[j].record)).preparation;
  }

  lemma {:induction false} DroppedWasThere(h: History, e: Entry)
    requires e in Drop(h)
    ensures e in h
  {
  }

  lemma {:induction false} ConformsHead(config: Config, h: History, candidate: Preparation)
    requires Conforms(config, h) && h != [] && h[0].preparation == candidate.name && IsCandidate(config, candidate)
    ensures h[0].revision == candidate.revision && h[0].digest == candidate.digest
  {
    assert ConformsEntry(config, h[0]);
  }

  lemma {:induction false} WriteGrows(registry: map<string, Statement>, statement: Option<Statement>, written: Option<string>)
    requires MayWrite(registry, statement, written)
    ensures RegistryGrows(registry, Write(registry, statement, written))
  {
  }

  /** A reconcile of pass that has read s starts the promotion of candidate, as
      ev records, with the statement st in the registry. */
  predicate IsStarting(config: Config, s: State, pass: Pass, candidate: Preparation, r: Reads, read: map<string, nat>, ev: Event, more: map<string, Statement>) {
    && HistoryOk(config, s.log, pass.stage, pass.working)
    && IsCandidate(config, candidate)
    && r.now == s.clock
    && (r.orders.Some? ==> ReadsVersions(s.versions, read, r.orders.value))
    && RecordsVerify(s.registry, r.records)
    && RegistryGrows(s.registry, more)
    && pass.working.h != [] && pass.working.h[0].preparation == candidate.name
    && var u := UpstreamOf(candidate, Drop(pass.working.h), r);
       && u.Some? && u.value.Satisfied()
       && ev == EventOf(s, pass, candidate, read, ev.record)
       && ev.record in more && more[ev.record].PromotionRecord?
       && more[ev.record].gates.after == EvidenceOf(candidate.stages, u.value.Result())
  }

  lemma {:induction false} EarlierIsLogged(s: State, pass: Pass, candidate: Preparation, r: Reads) returns (j: nat)
    requires AllLogged(s.log, pass.stage, pass.working.h) && r.orders.Some?
    requires GP.PromotedHereBefore(RequestOf(candidate, Drop(pass.working.h), r))
    ensures j < |s.log| && s.log[j].stage == pass.stage && s.log[j].entry.preparation == candidate.name
  {
    var e :| e in Drop(pass.working.h) && e.preparation == candidate.name && e.Promoted();
    DroppedWasThere(pass.working.h, e);
    j := PromotedIsLogged(s.log, pass.stage, pass.working.h, e);
  }

  lemma {:induction false} StartIsGrounded(config: Config, s: State, pass: Pass, candidate: Preparation, r: Reads, read: map<string, nat>, ev: Event, more: map<string, Statement>)
    requires VersionsOk(config, s.versions, s.log)
    requires IsStarting(config, s, pass, candidate, r, read, ev, more)
    ensures Grounded(s.versions, more, s.log + [ev], |s.log|)
  {
    var log := s.log + [ev];
    if candidate.stages != [] {
      PassesOn(candidate, Drop(pass.working.h), r);
      if GP.PromotedHereBefore(RequestOf(candidate, Drop(pass.working.h), r)) {
        var j := EarlierIsLogged(s, pass, candidate, r);
        assert log[j] == s.log[j];
      } else {
        forall i | 0 <= i < |candidate.stages| ensures GroundedAt(s.versions, more, log, |s.log|, i) {
          StartIsGroundedAt(config, s, pass, candidate, r, read, ev, more, i);
        }
      }
    }
  }

  lemma {:induction false} StartIsGroundedAt(config: Config, s: State, pass: Pass, candidate: Preparation, r: Reads, read: map<string, nat>, ev: Event, more: map<string, Statement>, i: nat)
    requires VersionsOk(config, s.versions, s.log)
    requires IsStarting(config, s, pass, candidate, r, read, ev, more) && i < |candidate.stages|
    requires r.orders.Some? ==> !GP.PromotedHereBefore(RequestOf(candidate, Drop(pass.working.h), r))
    ensures GroundedAt(s.versions, more, s.log + [ev], |s.log|, i)
  {
    var log := s.log + [ev];
    ConformsHead(config, pass.working.h, candidate);
    var j, m := UpstreamQualifies(config, s, pass.working.h, candidate, r, read, i);
    var t := s.versions[candidate.stages[i].order][read[candidate.stages[i].order]];
    assert Ran(t, more, candidate.stages[i], candidate.revision, s.clock, s.log[j], m);
    assert Cites(more, ev, i, t.h[m]);
    assert UpstreamRan(s.versions, more, ev, i, s.log[j]);
    assert log[j] == s.log[j];
  }

  lemma {:induction false} PromoteIsStarting(config: Config, s: State, p: nat, candidate: Preparation, r: Reads, read: map<string, nat>, written: Option<string>)
    requires PassesOk(config, s.versions, s.log, s.passes)
    requires MayPromote(config, s, p, candidate, r, read, written) && written.Some?
    ensures DecisionOf(s.passes[p].working.h, candidate, r).Starts? && Pending(s.passes[p].working.h).Some?
    ensures var pass := s.passes[p];
            var more := Write(s.registry, Promotes(pass, candidate, r), written);
            var ev := EventOf(s, pass, candidate, read, written.value);
            IsStarting(config, s, pass, candidate, r, read, ev, more) && WrittenAhead(s.versions, more, ev) && FollowsConfig(config, ev)
  {
    var pass := s.passes[p];
    assert PassOk(config, s.versions, s.log, pass);
    StartsOn(pass.working.h, candidate, r);
    WriteGrows(s.registry, Promotes(pass, candidate, r), written);
    assert ConformsEntry(config, pass.working.h[0]);
  }

  lemma {:induction false} EventsOkAdded(config: Config, versions: Versions, registry: map<string, Statement>, more: map<string, Statement>, log: seq<Event>, ev: Event)
    requires EventsOk(config, versions, registry, log) && RegistryGrows(registry, more)
    requires WrittenAhead(versions, more, ev) && FollowsConfig(config, ev) && Grounded(versions, more, log + [ev], |log|)
    ensures EventsOk(config, versions, more, log + [ev])
  {
    forall k | 0 <= k < |log| ensures Grounded(versions, more, log + [ev], k) && WrittenAhead(versions, more, log[k]) {
      GroundedGrows(versions, versions, registry, more, log, log + [ev], k);
    }
  }

  /** The history a reconcile that promotes comes to. */
  lemma {:induction false} PromoteKeepsHistory(config: Config, log: seq<Event>, pass: Pass, candidate: Preparation, r: Reads)
    requires HistoryOk(config, log, pass.stage, pass.working) && IsCandidate(config, candidate) && IsSet(Seconds(r.now))
    requires var d, h := DecisionOf(pass.working.h, candidate, r), pass.working.h;
             d.Starts? && r.pushed.Some? && Pending(h).Some? ==>
               r.pushed.value != "" && Logged(log, pass.stage, h[0].(promotionRecord := r.pushed.value))
    ensures HistoryOk(config, log, pass.stage, TrackOp(pass.working, OperationOf(DecisionOf(pass.working.h, candidate, r), candidate, r)))
  {
    var d := DecisionOf(pass.working.h, candidate, r);
    var op := OperationOf(d, candidate, r);
    if op.Some? {
      if d.Starts? {
        StartsOn(pass.working.h, candidate, r);
      }
      OpKeeps(config, log, pass.stage, pass.working, op.value);
    }
  }

  lemma {:induction false} PromoteHoldsHealthy(h: History, candidate: Preparation, r: Reads)
    requires WellFormed(h) && IsSet(Seconds(r.now))
    requires var d := DecisionOf(h, candidate, r); d.Starts? && r.pushed.Some? ==> r.pushed.value != ""
    ensures AllHeldHealthy(h, PromotedHistory(h, candidate, r))
  {
    var r' := PromotedHistory(h, candidate, r);
    var op := OperationOf(DecisionOf(h, candidate, r), candidate, r);
    forall k | 0 <= k < |r'| && r'[k].Promoted() && IsSet(r'[k].healthy) ensures HeldHealthy(h, r'[k]) {
      if op.Some? {
        HealthyComesFrom(h, op.value, k);
      }
    }
  }

  lemma {:induction false} RegistryOkAdded(s: State, more: seq<Event>, statement: Statement, digest: string)
    requires RegistryOk(s.versions, s.log, s.registry) && s.log <= more
    requires RecordOk(s.versions, more, digest, statement)
    ensures RegistryOk(s.versions, more, s.registry[digest := statement])
  {
    RegistryOkGrows(s.versions, s.versions, s.log, more, s.registry);
  }

  /** The reconcile goes on with what it promoted. */
  lemma {:induction false} PromotedPassOk(config: Config, s: State, p: nat, candidate: Preparation, r: Reads, read: map<string, nat>, written: Option<string>, log: seq<Event>)
    requires PassesOk(config, s.versions, s.log, s.passes) && IsSet(Seconds(s.clock)) && s.log <= log
    requires MayPromote(config, s, p, candidate, r, read, written)
    requires written.Some? ==> s.passes[p].working.h != [] && EventOf(s, s.passes[p], candidate, read, written.value) in log
    ensures PassOk(config, s.versions, log, TakePromote(s, p, candidate, r, read, written).passes[p])
  {
    var pass := s.passes[p];
    var h := pass.working.h;
    assert PassOk(config, s.versions, s.log, pass);
    LoggedGrows(s.log, log, pass.stage, h);
    var d := DecisionOf(h, candidate, r);
    if d.Starts? && r.pushed.Some? {
      StartsOn(h, candidate, r);
      var ev := EventOf(s, pass, candidate, read, written.value);
      var k :| 0 <= k < |log| && log[k] == ev;
      assert IsOf(log[k], pass.stage, h[0].(promotionRecord := r.pushed.value));
    }
    PromoteKeepsHistory(config, log, pass, candidate, r);
    PromoteHoldsHealthy(h, candidate, r);
  }

  lemma {:induction false} PromoteKeepsRecords(config: Config, s: State, p: nat, candidate: Preparation, r: Reads, read: map<string, nat>, written: Option<string>)
    requires Inv(config, s) && MayPromote(config, s, p, candidate, r, read, written) && written.Some?
    ensures DecisionOf(s.passes[p].working.h, candidate, r).Starts? && Pending(s.passes[p].working.h).Some?
    ensures var more := Write(s.registry, Promotes(s.passes[p], candidate, r), written);
            var log := s.log + [EventOf(s, s.passes[p], candidate, read, written.value)];
            EventsOk(config, s.versions, more, log) && RegistryOk(s.versions, log, more)
  {
    var pass := s.passes[p];
    PromoteIsStarting(config, s, p, candidate, r, read, written);
    var more := Write(s.registry, Promotes(pass, candidate, r), written);
    var ev := EventOf(s, pass, candidate, read, written.value);
    StartIsGrounded(config, s, pass, candidate, r, read, ev, more);
    EventsOkAdded(config, s.versions, s.registry, more, s.log, ev);
    var log := s.log + [ev];
    assert log[|s.log|] == ev;
    RegistryOkAdded(s, log, Promotes(pass, candidate, r).value, written.value);
  }

  lemma {:induction false} PassKeeps(config: Config, s: State, p: nat, pass: Pass)
    requires Inv(config, s) && p < |s.passes| && PassOk(config, s.versions, s.log, pass)
    ensures Inv(config, s.(passes := s.passes[p := pass]))
  {
  }

  lemma {:induction false} RecordsKeep(config: Config, s: State, registry: map<string, Statement>, log: seq<Event>)
    requires Inv(config, s) && s.log <= log
    requires RegistryOk(s.versions, log, registry) && EventsOk(config, s.versions, registry, log)
    ensures Inv(config, s.(registry := registry, log := log))
  {
    PassesOkGrows(config, s.versions, s.versions, s.log, log, s.passes);
    VersionsOkGrows(config, s.versions, s.log, log);
    AppsOkGrows(s.log, log, s.apps);
  }

  lemma {:induction false} PromoteKeeps(config: Config, s: State, p: nat, candidate: Preparation, r: Reads, read: map<string, nat>, written: Option<string>)
    requires Inv(config, s) && MayPromote(config, s, p, candidate, r, read, written)
    ensures Inv(config, TakePromote(s, p, candidate, r, read, written))
  {
    var t := TakePromote(s, p, candidate, r, read, written);
    if written.Some? {
      PromoteKeepsRecords(config, s, p, candidate, r, read, written);
    }
    PromotedPassOk(config, s, p, candidate, r, read, written, t.log);
    RecordsKeep(config, s, t.registry, t.log);
    PassKeeps(config, s.(registry := t.registry, log := t.log), p, t.passes[p]);
  }

  // ------------------------------------------------------ deploying and recording

  lemma {:induction false} DeployedIsLogged(log: seq<Event>, stage: string, h: History)
    requires AllLogged(log, stage, h) && Deployed(h).Some?
    ensures AppOk(log, stage, App(Deployed(h).value.digest, Deployed(h).value.promotionRecord))
  {
    var i := NewestPromoted(h);
    assert Logged(log, stage, h[i]);
    var k :| 0 <= k < |log| && IsOf(log[k], stage, h[i]);
    assert Identity(h[i]).digest == h[i].digest && Identity(h[i]).promotionRecord == h[i].promotionRecord;
  }

  lemma {:induction false} AppsKeep(config: Config, s: State, stage: string, app: App)
    requires Inv(config, s) && AppOk(s.log, stage, app)
    ensures Inv(config, s.(apps := s.apps[stage := app]))
  {
  }

  lemma {:induction false} DeployKeeps(config: Config, s: State, p: nat)
    requires Inv(config, s) && InPhase(s, p, Applying) && Deployed(s.passes[p].working.h).Some?
    ensures Inv(config, TakeDeploy(s, p))
  {
    var pass, t := s.passes[p], TakeDeploy(s, p);
    assert PassOk(config, s.versions, s.log, pass);
    DeployedIsLogged(s.log, pass.stage, pass.working.h);
    AppsKeep(config, s, pass.stage, t.apps[pass.stage]);
    PassKeeps(config, s.(apps := t.apps), p, pass.(phase := Observing));
  }

  lemma {:induction false} UndeployKeeps(config: Config, s: State, p: nat)
    requires Inv(config, s) && InPhase(s, p, Applying)
    ensures Inv(config, TakeUndeploy(s, p))
  {
    var pass, t := s.passes[p], TakeUndeploy(s, p);
    assert PassOk(config, s.versions, s.log, pass);
    PassKeeps(config, s.(apps := t.apps), p, pass.(phase := Done));
  }

  lemma {:induction false} UnrecordedTodo(base: History, h: History)
    requires AllHeldHealthy(base, h)
    ensures TodoOk(base, UnrecordedOf(h))
  {
    var todo := UnrecordedOf(h);
    forall i | 0 <= i < |todo| ensures todo[i].Promoted() && IsSet(todo[i].healthy) && HeldHealthy(base, todo[i]) {
      assert todo[i] in todo && todo[i] in h;
      var k :| 0 <= k < |h| && h[k] == todo[i];
    }
  }

  lemma {:induction false} ReportKeeps(config: Config, s: State, p: nat, o: Observation)
    requires Inv(config, s) && InPhase(s, p, Observing)
    ensures PassOk(config, s.versions, s.log, Observes(s.passes[p], o, s.clock))
  {
    var pass := s.passes[p];
    assert PassOk(config, s.versions, s.log, pass);
    OpKeeps(config, s.log, pass.stage, pass.working, OpObserve(o, s.clock));
    UnrecordedTodo(s.versions[pass.stage][pass.base].h, pass.working.h);
  }

  lemma {:induction false} RecordedOneOk(config: Config, s: State, p: nat, recording: Recording)
    requires PassesOk(config, s.versions, s.log, s.passes) && IsRecording(s, p) && s.passes[p].phase.todo != []
    ensures PassOk(config, s.versions, s.log, RecordsOne(s.passes[p], recording))
  {
    var pass := s.passes[p];
    assert PassOk(config, s.versions, s.log, pass);
    var todo := pass.phase.todo;
    if recording.RecordPushed? {
      OpKeeps(config, s.log, pass.stage, pass.phase.recorded, OpRecord(todo[0].digest, todo[0].healthy, recording.digest));
    }
    assert forall i :: 0 <= i < |todo[1..]| ==> todo[1..][i] == todo[i + 1];
  }

  /** A deployment record contains what the version read held. */
  lemma {:induction false} RecordWritesCommitted(config: Config, s: State, p: nat, targets: seq<Target>, digest: string)
    requires PassesOk(config, s.versions, s.log, s.passes) && IsRecording(s, p) && s.passes[p].phase.todo != []
    ensures var st := DeploymentStatement(s.passes[p].stage, s.passes[p].phase.todo[0], targets);
            st.Some? && RecordOk(s.versions, s.log, digest, st.value)
  {
    var pass := s.passes[p];
    assert PassOk(config, s.versions, s.log, pass);
    var base, e := s.versions[pass.stage][pass.base].h, pass.phase.todo[0];
    assert HeldHealthy(base, e);
    var i :| 0 <= i < |base| && base[i].Promoted() && Identity(base[i]) == Identity(e) && base[i].healthy == e.healthy;
    SameRecord(pass.stage, base[i], e, targets);
    assert IsDeploymentOf(DeploymentStatement(pass.stage, e, targets).value, pass.stage, s.versions[pass.stage][pass.base].h[i]);
  }

  lemma {:induction false} SameRecord(order: string, e: Entry, f: Entry, targets: seq<Target>)
    requires Identity(e) == Identity(f) && e.healthy == f.healthy && IsSet(e.healthy)
    ensures DeploymentStatement(order, e, targets) == DeploymentStatement(order, f, targets)
  {
  }

  lemma {:induction false} RecordKeepsRecords(config: Config, s: State, p: nat, targets: seq<Target>, written: Option<string>)
    requires Inv(config, s) && IsRecording(s, p) && s.passes[p].phase.todo != []
    requires MayWrite(s.registry, DeploymentStatement(s.passes[p].stage, s.passes[p].phase.todo[0], targets), written)
    ensures var more := Write(s.registry, DeploymentStatement(s.passes[p].stage, s.passes[p].phase.todo[0], targets), written);
            RegistryOk(s.versions, s.log, more) && EventsOk(config, s.versions, more, s.log)
  {
    var statement := DeploymentStatement(s.passes[p].stage, s.passes[p].phase.todo[0], targets);
    WriteGrows(s.registry, statement, written);
    if written.Some? {
      RecordWritesCommitted(config, s, p, targets, written.value);
      RegistryOkAdded(s, s.log, statement.value, written.value);
    }
    EventsOkGrows(config, s.versions, s.versions, s.registry, Write(s.registry, statement, written), s.log);
  }

  lemma {:induction false} RecordKeeps(config: Config, s: State, p: nat, recording: Recording, targets: seq<Target>, written: Option<string>)
    requires Inv(config, s) && MayRecord(s, p, recording, targets, written)
    ensures Inv(config, TakeRecord(s, p, recording, targets, written))
  {
    var t := TakeRecord(s, p, recording, targets, written);
    RecordedOneOk(config, s, p, recording);
    RecordKeepsRecords(config, s, p, targets, written);
    RecordsKeep(config, s, t.registry, s.log);
    PassKeeps(config, s.(registry := t.registry), p, t.passes[p]);
  }

  // ------------------------------------------------------------------ committing

  lemma {:induction false} VersionsKeep(config: Config, s: State, more: Versions)
    requires Inv(config, s) && Grows(s.versions, more) && VersionsOk(config, more, s.log)
    ensures Inv(config, s.(versions := more))
  {
    PassesOkGrows(config, s.versions, more, s.log, s.log, s.passes);
    RegistryOkGrows(s.versions, more, s.log, s.log, s.registry);
    EventsOkGrows(config, s.versions, more, s.registry, s.registry, s.log);
  }

  lemma {:induction false} VersionAdded(config: Config, s: State, stage: string, t: Identities)
    requires Inv(config, s) && stage in s.versions && HistoryOk(config, s.log, stage, t)
    ensures Inv(config, s.(versions := s.versions[stage := s.versions[stage] + [t]]))
  {
    VersionsKeep(config, s, s.versions[stage := s.versions[stage] + [t]]);
  }

  lemma {:induction false} PassGone(config: Config, s: State, p: nat)
    requires Inv(config, s) && p < |s.passes|
    ensures Inv(config, s.(passes := Without(s.passes, p)))
  {
  }

  lemma {:induction false} CommitKeeps(config: Config, s: State, p: nat)
    requires Inv(config, s) && p < |s.passes| && s.passes[p].stage in s.versions
    ensures Inv(config, TakeCommit(s, p))
  {
    var pass := s.passes[p];
    assert PassOk(config, s.versions, s.log, pass);
    if pass.base + 1 == |s.versions[pass.stage]| {
      VersionAdded(config, s, pass.stage, pass.working);
      PassGone(config, s.(versions := s.versions[pass.stage := s.versions[pass.stage] + [pass.working]]), p);
    } else {
      PassGone(config, s, p);
    }
  }

  lemma {:induction false} RecreateKeeps(config: Config, s: State, stage: string)
    requires Inv(config, s) && stage in s.versions && s.versions[stage] != []
    ensures Inv(config, TakeRecreate(s, stage))
  {
    var last := s.versions[stage][|s.versions[stage]| - 1];
    assert HistoryOk(config, s.log, stage, last);
    VersionAdded(config, s, stage, Tracked([], [], last.next, last.log));
  }

  lemma {:induction false} IdleKeeps(config: Config, s: State, p: nat)
    requires Inv(config, s) && InPhase(s, p, Promoting)
    ensures Inv(config, s.(passes := s.passes[p := s.passes[p].(working := Track(s.passes[p].working, OpDrop), phase := Applying)]))
    ensures Inv(config, s.(passes := s.passes[p := s.passes[p].(phase := Applying)]))
  {
    var pass := s.passes[p];
    assert PassOk(config, s.versions, s.log, pass);
    OpKeeps(config, s.log, pass.stage, pass.working, OpDrop);
    DropHoldsHealthy(pass.working.h);
    PassKeeps(config, s, p, pass.(working := Track(pass.working, OpDrop), phase := Applying));
    PassKeeps(config, s, p, pass.(phase := Applying));
  }

  lemma {:induction false} DropHoldsHealthy(h: History)
    requires WellFormed(h)
    ensures AllHeldHealthy(h, Drop(h)) && AllHeldHealthy(h, h)
  {
    forall k | 0 <= k < |Drop(h)| && Drop(h)[k].Promoted() && IsSet(Drop(h)[k].healthy) ensures HeldHealthy(h, Drop(h)[k]) {
      HealthyComesFrom(h, OpDrop, k);
    }
  }

  lemma {:induction false} ReadKeeps(config: Config, s: State, stage: string, v: nat)
    requires Inv(config, s) && stage in s.versions && v < |s.versions[stage]|
    ensures Inv(config, s.(passes := s.passes + [Pass(stage, v, s.versions[stage][v], Promoting)]))
  {
    assert HistoryOk(config, s.log, stage, s.versions[stage][v]);
  }

  lemma {:induction false} ReportStepKeeps(config: Config, s: State, p: nat, o: Observation)
    requires Inv(config, s) && InPhase(s, p, Observing)
    ensures Inv(config, s.(passes := s.passes[p := Observes(s.passes[p], o, s.clock)]))
  {
    ReportKeeps(config, s, p, o);
    PassKeeps(config, s, p, Observes(s.passes[p], o, s.clock));
  }

  lemma {:induction false} FinishKeeps(config: Config, s: State, p: nat)
    requires Inv(config, s) && IsRecording(s, p)
    ensures Inv(config, s.(passes := s.passes[p := s.passes[p].(working := s.passes[p].phase.recorded, phase := Done)]))
  {
    assert PassOk(config, s.versions, s.log, s.passes[p]);
    PassKeeps(config, s, p, s.passes[p].(working := s.passes[p].phase.recorded, phase := Done));
  }

  lemma {:induction false} TickKeeps(config: Config, s: State, to: Time)
    requires Inv(config, s) && to >= s.clock
    ensures Inv(config, s.(clock := to))
  {
  }

  lemma {:induction false} StepKeeps(config: Config, s: State, step: Promotions.Step)
    requires Inv(config, s) && Enabled(config, s, step)
    ensures Inv(config, Take(config, s, step))
  {
    match step
    case Tick(to) => TickKeeps(config, s, to);
    case Read(stage, v) => ReadKeeps(config, s, stage, v);
    case Idle(p) => IdleKeeps(config, s, p);
    case Skip(p) => IdleKeeps(config, s, p);
    case Promote(p, candidate, r, read, written) => PromoteKeeps(config, s, p, candidate, r, read, written);
    case Deploy(p) => DeployKeeps(config, s, p);
    case Undeploy(p) => UndeployKeeps(config, s, p);
    case Report(p, o) => ReportStepKeeps(config, s, p, o);
    case Record(p, recording, targets, written) => RecordKeeps(config, s, p, recording, targets, written);
    case Finish(p) => FinishKeeps(config, s, p);
    case Commit(p) => CommitKeeps(config, s, p);
    case Abandon(p) => PassGone(config, s, p);
    case Recreate(stage) => RecreateKeeps(config, s, stage);
  }

  // -------------------------------------------------- the steps of one reconcile

  /** The steps that record what is left to record, one by one. */
  function Drained(pass: Pass, recordings: map<Entry, Recording>): Pass
    requires pass.phase.Recording?
    decreases |pass.phase.todo|
  {
    var todo := pass.phase.todo;
    if todo == [] then pass.(working := pass.phase.recorded, phase := Done)
    else
      var next := RecordsOne(pass, if todo[0] in recordings then recordings[todo[0]] else NotPushed);
      if next.phase.Recording? then Drained(next, recordings) else next
  }

  lemma {:induction false} DrainedIsRecorded(pass: Pass, recordings: map<Entry, Recording>)
    requires pass.phase.Recording?
    ensures var all := RecordedAll(pass.phase.recorded.h, pass.phase.todo, recordings);
            Drained(pass, recordings).working.h == if all.Some? then all.value else pass.working.h
    decreases |pass.phase.todo|
  {
    var todo := pass.phase.todo;
    if todo != [] && todo[0] in recordings && !recordings[todo[0]].NotPushed? {
      DrainedIsRecorded(RecordsOne(pass, recordings[todo[0]]), recordings);
    }
  }

  /** Where the steps of deploying leave a pass: it is as it was unless the
      Applications were applied; then it observed, and recorded what is left to
      record if nothing it observed is new and there is a key to sign with. */
  function DeploySteps(pass: Pass, d: DeployReads): Pass {
    if !AppsOf(pass.working.h, d).AppsPointAt? || !d.applied then pass
    else
      var q := Observes(pass, d.observation, d.now);
      if q.phase.Recording? && d.signing then Drained(q, d.recordings) else q
  }

  /** The steps of a pass come to what one reconcile comes to: promoting to the
      history Promote leaves, and observing and recording to the one Deploy does. */
  lemma {:induction false} StepsAreReconciles(s: State, p: nat, candidate: Preparation, r: Reads, read: map<string, nat>, written: Option<string>, d: DeployReads)
    requires p < |s.passes| && MayWrite(s.registry, Promotes(s.passes[p], candidate, r), written)
    ensures TakePromote(s, p, candidate, r, read, written).passes[p].working.h == PromotedHistory(s.passes[p].working.h, candidate, r)
    ensures DeploySteps(s.passes[p], d).working.h == DeployedHistory(s.passes[p].working.h, d)
  {
    DeployStepsAreDeploy(s.passes[p], d);
  }

  lemma {:induction false} DeployStepsAreDeploy(pass: Pass, d: DeployReads)
    ensures DeploySteps(pass, d).working.h == DeployedHistory(pass.working.h, d)
  {
    var q := Observes(pass, d.observation, d.now);
    if q.phase.Recording? {
      DrainedIsRecorded(q, d.recordings);
    }
  }

  /** They leave the Applications as Deploy says, and those of other stages as
      they were. */
  lemma {:induction false} StepsLeaveApps(s: State, p: nat, d: DeployReads, stage: string)
    requires p < |s.passes|
    ensures var pass, apps := s.passes[p], AppsOf(s.passes[p].working.h, d);
            && (apps.AppsRemoved? ==> pass.stage !in TakeUndeploy(s, p).apps)
            && (apps.AppsPointAt? ==> Deployed(pass.working.h).Some? && pass.stage in TakeDeploy(s, p).apps
                                      && TakeDeploy(s, p).apps[pass.stage] == App(apps.deployed.digest, apps.deployed.promotionRecord))
            && (stage != pass.stage && stage in s.apps ==>
                  && (stage in TakeUndeploy(s, p).apps && TakeUndeploy(s, p).apps[stage] == s.apps[stage])
                  && (Deployed(pass.working.h).Some? ==> stage in TakeDeploy(s, p).apps && TakeDeploy(s, p).apps[stage] == s.apps[stage]))
  {
  }
}
