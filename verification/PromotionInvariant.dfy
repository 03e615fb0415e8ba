/** What holds in every state of the promotion protocol. */
module PromotionInvariant {
  import opened Options
  import opened Times
  import opened Histories
  import opened HistoryRuns
  import opened HistoryEntries
  import opened Soak
  import opened Records
  import opened Preparations
  import opened Servings
  import opened Promotions
  import G = Gate

  type Config = map<string, Preparation>

  // ------------------------------------------------------------------ histories

  /** e is a deployment whose promotion ev recorded. */
  predicate IsOf(ev: Event, stage: string, e: Entry) {
    ev.stage == stage && Identity(e) == Identity(ev.entry.(promotionRecord := ev.record))
  }

  predicate Logged(log: seq<Event>, stage: string, e: Entry) {
    exists k :: 0 <= k < |log| && IsOf(log[k], stage, e)
  }

  predicate AllLogged(log: seq<Event>, stage: string, h: History) {
    forall i :: 0 <= i < |h| && h[i].Promoted() ==> Logged(log, stage, h[i])
  }

  predicate ConformsEntry(config: Config, e: Entry) {
    e.preparation in config && Subject(e) == Subject(EntryOf(config[e.preparation]))
  }

  predicate Conforms(config: Config, h: History) {
    forall i :: 0 <= i < |h| ==> ConformsEntry(config, h[i])
  }

  predicate HistoryOk(config: Config, log: seq<Event>, stage: string, t: Identities) {
    TrackedOk(t) && Conforms(config, t.h) && AllLogged(log, stage, t.h)
  }

  lemma {:induction false} LoggedGrows(log: seq<Event>, more: seq<Event>, stage: string, h: History)
    requires log <= more && AllLogged(log, stage, h)
    ensures AllLogged(more, stage, h)
  {
    forall i | 0 <= i < |h| && h[i].Promoted() ensures Logged(more, stage, h[i]) {
      var k :| 0 <= k < |log| && IsOf(log[k], stage, h[i]);
      assert IsOf(more[k], stage, h[i]);
    }
  }

  lemma {:induction false} OpConforms(config: Config, h: History, op: Op)
    requires Conforms(config, h) && (op.OpOpen? ==> ConformsEntry(config, op.candidate))
    ensures Conforms(config, HistoryRuns.Apply(h, op))
  {
    var r := HistoryRuns.Apply(h, op);
    forall k | 0 <= k < |r| ensures ConformsEntry(config, r[k]) {
      SubjectComesFrom(h, op, k);
      if !(op.OpOpen? && Subject(r[k]) == Subject(op.candidate)) {
        var i :| 0 <= i < |h| && Subject(h[i]) == Subject(r[k]);
        assert ConformsEntry(config, h[i]);
      }
    }
  }

  lemma {:induction false} OpLogged(log: seq<Event>, stage: string, h: History, op: Op)
    requires AllLogged(log, stage, h) && Valid(op)
    requires op.OpStart? && Pending(h).Some? ==> Logged(log, stage, h[0].(promotionRecord := op.record))
    ensures AllLogged(log, stage, HistoryRuns.Apply(h, op))
  {
    var r := HistoryRuns.Apply(h, op);
    forall k | 0 <= k < |r| && r[k].Promoted() ensures Logged(log, stage, r[k]) {
      PromotedComesFrom(h, op, k);
      if Held(h, r[k]) {
        var i :| 0 <= i < |h| && h[i].Promoted() && Identity(h[i]) == Identity(r[k]);
        var j :| 0 <= j < |log| && IsOf(log[j], stage, h[i]);
        assert IsOf(log[j], stage, r[k]);
      } else {
        var j :| 0 <= j < |log| && IsOf(log[j], stage, h[0].(promotionRecord := op.record));
        assert IsOf(log[j], stage, r[k]);
      }
    }
  }

  lemma {:induction false} OpKeeps(config: Config, log: seq<Event>, stage: string, t: Identities, op: Op)
    requires HistoryOk(config, log, stage, t) && Valid(op)
    requires op.OpOpen? ==> ConformsEntry(config, op.candidate)
    requires op.OpStart? && Pending(t.h).Some? ==> Logged(log, stage, t.h[0].(promotionRecord := op.record))
    ensures HistoryOk(config, log, stage, Track(t, op))
  {
    TrackKeeps(t, op);
    OpConforms(config, t.h, op);
    OpLogged(log, stage, t.h, op);
  }

  // ------------------------------------------------------------------ versions

  predicate VersionsOk(config: Config, versions: Versions, log: seq<Event>) {
    && (forall s :: s in versions ==> versions[s] != [])
    && (forall s, v :: s in versions && 0 <= v < |versions[s]| ==> HistoryOk(config, log, s, versions[s][v]))
  }

  /** Versions are only ever added. */
  predicate Grows(versions: Versions, more: Versions) {
    forall s :: s in versions ==> s in more && versions[s] <= more[s]
  }

  predicate RegistryGrows(registry: map<string, Statement>, more: map<string, Statement>) {
    forall d :: d in registry ==> d in more && more[d] == registry[d]
  }

  // ---------------------------------------------------------------- reconciles

  predicate AllHeldHealthy(base: History, h: History) {
    forall i :: 0 <= i < |h| && h[i].Promoted() && IsSet(h[i].healthy) ==> HeldHealthy(base, h[i])
  }

  predicate TodoOk(base: History, todo: seq<Entry>) {
    forall i :: 0 <= i < |todo| ==> todo[i].Promoted() && IsSet(todo[i].healthy) && HeldHealthy(base, todo[i])
  }

  predicate PassOk(config: Config, versions: Versions, log: seq<Event>, pass: Pass) {
    && pass.stage in versions && pass.base < |versions[pass.stage]|
    && HistoryOk(config, log, pass.stage, pass.working)
    && var base := versions[pass.stage][pass.base];
       match pass.phase
       case Promoting => pass.working == base
       case Applying => AllHeldHealthy(base.h, pass.working.h)
       case Observing => AllHeldHealthy(base.h, pass.working.h)
       case Recording(todo, recorded) => TodoOk(base.h, todo) && HistoryOk(config, log, pass.stage, recorded)
       case Done => true
  }

  predicate PassesOk(config: Config, versions: Versions, log: seq<Event>, passes: seq<Pass>) {
    forall p :: 0 <= p < |passes| ==> PassOk(config, versions, log, passes[p])
  }

  predicate AppOk(log: seq<Event>, stage: string, app: App) {
    exists k :: 0 <= k < |log| && log[k].stage == stage && log[k].entry.digest == app.digest && log[k].record == app.record
  }

  predicate AppsOk(log: seq<Event>, apps: map<string, App>) {
    forall s :: s in apps ==> AppOk(log, s, apps[s])
  }

  // -------------------------------------------------------------------- records

  /** st is the record of the deployment e of stage. */
  predicate IsDeploymentOf(st: Statement, stage: string, e: Entry) {
    st.DeploymentRecord? && e.Promoted() && IsSet(e.healthy) && DeploymentStatement(stage, e, st.targets) == Some(st)
  }

  /** A promotion record was pushed by a logged promotion, and a deployment
      record contains what some version of a history held. */
  predicate RecordOk(versions: Versions, log: seq<Event>, d: string, st: Statement) {
    match st
    case PromotionRecord(_, _, _, _, _, _, _, _, _) => exists k :: 0 <= k < |log| && log[k].record == d
    case DeploymentRecord(_, _, _, _, _, _, _, _) =>
      exists s, v, i :: s in versions && 0 <= v < |versions[s]| && 0 <= i < |versions[s][v].h| && IsDeploymentOf(st, s, versions[s][v].h[i])
  }

  predicate RegistryOk(versions: Versions, log: seq<Event>, registry: map<string, Statement>) {
    forall d :: d in registry ==> RecordOk(versions, log, d, registry[d])
  }

  // --------------------------------------------------------------------- events

  /** The entry a promotion started was pending in the version it had read, and
      its record is in the registry, about that version. */
  predicate WrittenAhead(versions: Versions, registry: map<string, Statement>, ev: Event) {
    && ev.stage in versions && ev.base < |versions[ev.stage]|
    && Pending(versions[ev.stage][ev.base].h) == Some(ev.entry)
    && ev.record in registry && registry[ev.record].PromotionRecord?
    && PromotionOf(ev.stage, registry[ev.record].mode, versions[ev.stage][ev.base].h, registry[ev.record].gates) == Some(registry[ev.record])
  }

  /** The entry at position m of a version of the history of the stage's Order is
      a deployment that up recorded, of the revision, that was healthy for the
      soak of the stage and did not degrade, and whose record is in the registry. */
  predicate Ran(t: Tracked, registry: map<string, Statement>, stage: G.Stage, revision: string, at: Time, up: Event, m: nat)
    requires |t.ids| == |t.h|
  {
    && m < |t.h|
    && IsOf(up, stage.order, t.h[m]) && t.h[m].revision == revision
    && Undegraded(t.h[m]) && G.HealthyFor(t.h[m], at) >= stage.Soak()
    && Attests(registry, stage.order, t.h[m])
  }

  function EvidenceOn(stage: G.Stage, e: Entry): StageEvidence {
    StageEvidence(stage.order, stage.soakSeconds, Some(DeploymentEvidence(ArtifactOf(e), Timestamp(e.healthy), e.deploymentRecord)), "")
  }

  /** The promotion record of ev names the deployment e for its stage at i. */
  predicate Cites(registry: map<string, Statement>, ev: Event, i: nat, e: Entry)
    requires i < |ev.stages|
  {
    && ev.record in registry && registry[ev.record].PromotionRecord? && i < |registry[ev.record].gates.after|
    && registry[ev.record].gates.after[i] == EvidenceOn(ev.stages[i], e)
  }

  /** Before ev, up recorded a promotion of the same revision by the upstream
      stage at i. In the version of its history that ev read, that deployment
      soaked without interruption, and the promotion record of ev cites it. */
  ghost predicate UpstreamRan(versions: Versions, registry: map<string, Statement>, ev: Event, i: nat, up: Event)
    requires i < |ev.stages|
  {
    var order := ev.stages[i].order;
    && order in versions && order in ev.read && ev.read[order] < |versions[order]|
    && var t := versions[order][ev.read[order]];
       exists m: nat :: Ran(t, registry, ev.stages[i], ev.entry.revision, ev.at, up, m) && Uninterrupted(t, m) && Cites(registry, ev, i, t.h[m])
  }

  /** The promotion that log[k] recorded came with no upstream stages, after an
      earlier promotion of the Preparation by the same stage, or after every
      upstream stage ran the revision. */
  ghost predicate Grounded(versions: Versions, registry: map<string, Statement>, log: seq<Event>, k: nat)
    requires k < |log|
  {
    || log[k].stages == []
    || (exists j :: 0 <= j < k && log[j].stage == log[k].stage && log[j].entry.preparation == log[k].entry.preparation)
    || (forall i :: 0 <= i < |log[k].stages| ==> GroundedAt(versions, registry, log, k, i))
  }

  ghost predicate GroundedAt(versions: Versions, registry: map<string, Statement>, log: seq<Event>, k: nat, i: nat)
    requires k < |log| && i < |log[k].stages|
  {
    exists j :: 0 <= j < k && UpstreamRan(versions, registry, log[k], i, log[j])
  }

  predicate FollowsConfig(config: Config, ev: Event) {
    ConformsEntry(config, ev.entry) && ev.stages == config[ev.entry.preparation].stages
  }

  ghost predicate EventsOk(config: Config, versions: Versions, registry: map<string, Statement>, log: seq<Event>) {
    forall k :: 0 <= k < |log| ==>
      WrittenAhead(versions, registry, log[k]) && Grounded(versions, registry, log, k) && FollowsConfig(config, log[k])
  }

  ghost predicate Inv(config: Config, s: State) {
    && IsSet(Seconds(s.clock)) && s.clock > 0
    && VersionsOk(config, s.versions, s.log)
    && PassesOk(config, s.versions, s.log, s.passes)
    && AppsOk(s.log, s.apps)
    && RegistryOk(s.versions, s.log, s.registry)
    && EventsOk(config, s.versions, s.registry, s.log)
  }

  // --------------------------------------------------- nothing is ever taken back

  lemma {:induction false} VersionsOkGrows(config: Config, versions: Versions, log: seq<Event>, more: seq<Event>)
    requires VersionsOk(config, versions, log) && log <= more
    ensures VersionsOk(config, versions, more)
  {
    forall s, v | s in versions && 0 <= v < |versions[s]| ensures HistoryOk(config, more, s, versions[s][v]) {
      LoggedGrows(log, more, s, versions[s][v].h);
    }
  }

  lemma {:induction false} PassOkGrows(config: Config, versions: Versions, moreVersions: Versions, log: seq<Event>, more: seq<Event>, pass: Pass)
    requires PassOk(config, versions, log, pass) && log <= more && Grows(versions, moreVersions)
    ensures PassOk(config, moreVersions, more, pass)
  {
    LoggedGrows(log, more, pass.stage, pass.working.h);
    if pass.phase.Recording? {
      LoggedGrows(log, more, pass.stage, pass.phase.recorded.h);
    }
    assert moreVersions[pass.stage][pass.base] == versions[pass.stage][pass.base];
  }

  lemma {:induction false} PassesOkGrows(config: Config, versions: Versions, moreVersions: Versions, log: seq<Event>, more: seq<Event>, passes: seq<Pass>)
    requires PassesOk(config, versions, log, passes) && log <= more && Grows(versions, moreVersions)
    ensures PassesOk(config, moreVersions, more, passes)
  {
    forall p | 0 <= p < |passes| ensures PassOk(config, moreVersions, more, passes[p]) {
      PassOkGrows(config, versions, moreVersions, log, more, passes[p]);
    }
  }

  lemma {:induction false} AppsOkGrows(log: seq<Event>, more: seq<Event>, apps: map<string, App>)
    requires AppsOk(log, apps) && log <= more
    ensures AppsOk(more, apps)
  {
    forall s | s in apps ensures AppOk(more, s, apps[s]) {
      var k :| 0 <= k < |log| && log[k].stage == s && log[k].entry.digest == apps[s].digest && log[k].record == apps[s].record;
      assert more[k] == log[k];
    }
  }

  lemma {:induction false} RecordOkGrows(versions: Versions, moreVersions: Versions, log: seq<Event>, more: seq<Event>, d: string, st: Statement)
    requires RecordOk(versions, log, d, st) && log <= more && Grows(versions, moreVersions)
    ensures RecordOk(moreVersions, more, d, st)
  {
    if st.PromotionRecord? {
      var k :| 0 <= k < |log| && log[k].record == d;
      assert more[k] == log[k];
    } else {
      var s, v, i :| s in versions && 0 <= v < |versions[s]| && 0 <= i < |versions[s][v].h| && IsDeploymentOf(st, s, versions[s][v].h[i]);
      assert moreVersions[s][v] == versions[s][v];
    }
  }

  lemma {:induction false} RegistryOkGrows(versions: Versions, moreVersions: Versions, log: seq<Event>, more: seq<Event>, registry: map<string, Statement>)
    requires RegistryOk(versions, log, registry) && log <= more && Grows(versions, moreVersions)
    ensures RegistryOk(moreVersions, more, registry)
  {
    forall d | d in registry ensures RecordOk(moreVersions, more, d, registry[d]) {
      RecordOkGrows(versions, moreVersions, log, more, d, registry[d]);
    }
  }

  lemma {:induction false} UpstreamRanGrows(versions: Versions, moreVersions: Versions, registry: map<string, Statement>, moreRegistry: map<string, Statement>, ev: Event, i: nat, up: Event)
    requires i < |ev.stages| && UpstreamRan(versions, registry, ev, i, up)
    requires Grows(versions, moreVersions) && RegistryGrows(registry, moreRegistry)
    ensures UpstreamRan(moreVersions, moreRegistry, ev, i, up)
  {
    var order := ev.stages[i].order;
    var t := versions[order][ev.read[order]];
    assert moreVersions[order][ev.read[order]] == t;
    var m: nat :| Ran(t, registry, ev.stages[i], ev.entry.revision, ev.at, up, m) && Uninterrupted(t, m) && Cites(registry, ev, i, t.h[m]);
    assert Ran(t, moreRegistry, ev.stages[i], ev.entry.revision, ev.at, up, m) && Cites(moreRegistry, ev, i, t.h[m]);
  }

  lemma {:induction false} GroundedGrows(versions: Versions, moreVersions: Versions, registry: map<string, Statement>, moreRegistry: map<string, Statement>,
                                         log: seq<Event>, more: seq<Event>, k: nat)
    requires k < |log| && log <= more && Grounded(versions, registry, log, k)
    requires Grows(versions, moreVersions) && RegistryGrows(registry, moreRegistry)
    ensures Grounded(moreVersions, moreRegistry, more, k)
  {
    if log[k].stages == [] {
    } else if exists j :: 0 <= j < k && log[j].stage == log[k].stage && log[j].entry.preparation == log[k].entry.preparation {
      var j :| 0 <= j < k && log[j].stage == log[k].stage && log[j].entry.preparation == log[k].entry.preparation;
      assert more[j] == log[j];
    } else {
      forall i | 0 <= i < |log[k].stages| ensures GroundedAt(moreVersions, moreRegistry, more, k, i) {
        assert GroundedAt(versions, registry, log, k, i);
        var j :| 0 <= j < k && UpstreamRan(versions, registry, log[k], i, log[j]);
        UpstreamRanGrows(versions, moreVersions, registry, moreRegistry, log[k], i, log[j]);
        assert more[j] == log[j];
      }
    }
  }

  lemma {:induction false} EventsOkGrows(config: Config, versions: Versions, moreVersions: Versions, registry: map<string, Statement>, moreRegistry: map<string, Statement>, log: seq<Event>)
    requires EventsOk(config, versions, registry, log)
    requires Grows(versions, moreVersions) && RegistryGrows(registry, moreRegistry)
    ensures EventsOk(config, moreVersions, moreRegistry, log)
  {
    forall k | 0 <= k < |log| ensures WrittenAhead(moreVersions, moreRegistry, log[k]) && Grounded(moreVersions, moreRegistry, log, k) {
      GroundedGrows(versions, moreVersions, registry, moreRegistry, log, log, k);
      assert moreVersions[log[k].stage][log[k].base] == versions[log[k].stage][log[k].base];
    }
  }
}
