/** What holds in every run of the promotion protocol. */
module PromotionRuns {
  import opened Options
  import opened Times
  import opened Histories
  import opened HistoryRuns
  import opened Soak
  import opened Records
  import opened Promotions
  import opened PromotionInvariant
  import opened PromotionSteps
  import G = Gate

  /** The states a run goes through from when nothing is deployed. config holds
      the Preparations as they are created. */
  predicate IsRun(config: Config, stages: set<string>, clock: Time, steps: seq<Promotions.Step>, states: seq<State>) {
    && |states| == |steps| + 1
    && clock >= SECOND
    && states[0] == Initial(stages, clock)
    && forall i :: 0 <= i < |steps| ==> Enabled(config, states[i], steps[i]) && states[i + 1] == Take(config, states[i], steps[i])
  }

  lemma {:induction false} RunKeeps(config: Config, stages: set<string>, clock: Time, steps: seq<Promotions.Step>, states: seq<State>, k: nat)
    requires IsRun(config, stages, clock, steps, states) && k < |states|
    ensures Inv(config, states[k])
  {
    if k > 0 {
      RunKeeps(config, stages, clock, steps, states, k - 1);
      StepKeeps(config, states[k - 1], steps[k - 1]);
    }
  }

  // ------------------------------------------------------------------ the pipeline

  /** Every promotion that was recorded names no upstream stages, or follows an
      earlier promotion of the same Preparation by the same stage, or follows,
      for each stage it names, an upstream promotion of the same revision whose
      deployment, in the version of the history that was read, soaked without
      interruption; its record cites that deployment and its record. */
  lemma {:induction false} PromotionsAreGrounded(config: Config, stages: set<string>, clock: Time, steps: seq<Promotions.Step>, states: seq<State>, k: nat)
    requires IsRun(config, stages, clock, steps, states) && k < |states|
    ensures var s := states[k];
            forall e :: 0 <= e < |s.log| ==> Grounded(s.versions, s.registry, s.log, e) && FollowsConfig(config, s.log[e])
  {
    RunKeeps(config, stages, clock, steps, states, k);
  }

  /** up recorded a promotion of the same Preparation by the same stage. */
  predicate Again(up: Event, ev: Event) {
    up.stage == ev.stage && up.entry.preparation == ev.entry.preparation
  }

  /** The promotion that log[k] recorded, unwound all the way up: it came with no
      upstream stages, or after an earlier promotion of the Preparation by the
      same stage, or after every stage it names ran the revision; and so did
      every promotion it rests on. */
  ghost predicate Unwound(versions: Versions, registry: map<string, Statement>, log: seq<Event>, k: nat)
    requires k < |log|
    decreases k, 1
  {
    || log[k].stages == []
    || (exists j: nat :: j < k && Again(log[j], log[k]) && Unwound(versions, registry, log, j))
    || (forall i: nat :: i < |log[k].stages| ==> UnwoundAt(versions, registry, log, k, i))
  }

  ghost predicate UnwoundAt(versions: Versions, registry: map<string, Statement>, log: seq<Event>, k: nat, i: nat)
    requires k < |log| && i < |log[k].stages|
    decreases k, 0
  {
    exists j: nat :: j < k && UpstreamRan(versions, registry, log[k], i, log[j]) && Unwound(versions, registry, log, j)
  }

  lemma {:induction false} GroundedIsUnwound(config: Config, s: State, k: nat)
    requires EventsOk(config, s.versions, s.registry, s.log) && k < |s.log|
    ensures Unwound(s.versions, s.registry, s.log, k)
  {
    var ev := s.log[k];
    assert Grounded(s.versions, s.registry, s.log, k);
    if ev.stages == [] {
    } else if exists j :: 0 <= j < k && s.log[j].stage == ev.stage && s.log[j].entry.preparation == ev.entry.preparation {
      var j :| 0 <= j < k && s.log[j].stage == ev.stage && s.log[j].entry.preparation == ev.entry.preparation;
      GroundedIsUnwound(config, s, j);
      assert Again(s.log[j], ev);
    } else {
      forall i: nat | i < |ev.stages| ensures UnwoundAt(s.versions, s.registry, s.log, k, i) {
        assert GroundedAt(s.versions, s.registry, s.log, k, i);
        var j :| 0 <= j < k && UpstreamRan(s.versions, s.registry, ev, i, s.log[j]);
        GroundedIsUnwound(config, s, j);
      }
    }
  }

  /** In every state of every run, however the pipeline is edited, every recorded
      promotion is grounded all the way up: however far upstream a stage is, its
      deployment of the revision soaked without interruption for the stage that
      rests on it, and is cited by the record of that stage's promotion. */
  lemma {:induction false} PipelineIsSafe(config: Config, stages: set<string>, clock: Time, steps: seq<Promotions.Step>, states: seq<State>, k: nat)
    requires IsRun(config, stages, clock, steps, states) && k < |states|
    ensures var s := states[k]; forall e: nat :: e < |s.log| ==> Unwound(s.versions, s.registry, s.log, e)
  {
    RunKeeps(config, stages, clock, steps, states, k);
    var s := states[k];
    forall e: nat | e < |s.log| ensures Unwound(s.versions, s.registry, s.log, e) {
      GroundedIsUnwound(config, s, e);
    }
  }

  function OrdersOf(stages: seq<G.Stage>): set<string> {
    set s | s in stages :: s.order
  }

  /** Up to the promotion log[k], those of its revision by a stage on path named
      the next stage of path as upstream. */
  predicate GoesUpstream(log: seq<Event>, k: nat, path: seq<string>)
    requires k < |log|
  {
    && path != [] && log[k].stage == path[0]
    && forall e, i :: 0 <= e <= k && 0 <= i < |path| - 1 && log[e].stage == path[i] && log[e].entry.revision == log[k].entry.revision ==>
         path[i + 1] in OrdersOf(log[e].stages)
  }

  lemma {:induction false} UpstreamPromoted(versions: Versions, registry: map<string, Statement>, ev: Event, i: nat, up: Event)
    requires i < |ev.stages| && UpstreamRan(versions, registry, ev, i, up)
    ensures up.stage == ev.stages[i].order && up.entry.revision == ev.entry.revision
  {
    var t := versions[ev.stages[i].order][ev.read[ev.stages[i].order]];
    var m: nat :| Ran(t, registry, ev.stages[i], ev.entry.revision, ev.at, up, m) && Uninterrupted(t, m) && Cites(registry, ev, i, t.h[m]);
    assert Identity(t.h[m]).revision == Identity(up.entry.(promotionRecord := up.record)).revision;
  }

  /** A promotion comes after one by any stage it names, that ran the revision
      for it, or after one of the same Preparation by its own stage. */
  lemma {:induction false} OneRanBefore(config: Config, s: State, k: nat, order: string) returns (again: bool, j: nat, i: nat)
    requires EventsOk(config, s.versions, s.registry, s.log) && k < |s.log| && order in OrdersOf(s.log[k].stages)
    ensures j < k && s.log[j].entry.revision == s.log[k].entry.revision
    ensures if again then s.log[j].stage == s.log[k].stage
            else s.log[j].stage == order && i < |s.log[k].stages| && UpstreamRan(s.versions, s.registry, s.log[k], i, s.log[j])
  {
    var ev := s.log[k];
    again := exists e :: 0 <= e < k && s.log[e].stage == ev.stage && s.log[e].entry.preparation == ev.entry.preparation;
    assert Grounded(s.versions, s.registry, s.log, k) && FollowsConfig(config, ev);
    i :| 0 <= i < |ev.stages| && ev.stages[i].order == order;
    if again {
      j :| 0 <= j < k && s.log[j].stage == ev.stage && s.log[j].entry.preparation == ev.entry.preparation;
      assert FollowsConfig(config, s.log[j]);
    } else {
      assert GroundedAt(s.versions, s.registry, s.log, k, i);
      j :| 0 <= j < k && UpstreamRan(s.versions, s.registry, ev, i, s.log[j]);
      UpstreamPromoted(s.versions, s.registry, ev, i, s.log[j]);
    }
  }

  lemma {:induction false} RestGoesUpstream(log: seq<Event>, k: nat, path: seq<string>, j: nat, n: nat)
    requires j <= k < |log| && GoesUpstream(log, k, path) && n < |path|
    requires log[j].stage == path[n] && log[j].entry.revision == log[k].entry.revision
    ensures GoesUpstream(log, j, path[n..])
  {
  }

  /** Along every path of upstream stages from the stage of a promotion, the last
      stage ran the same revision for the one before it: log[j] recorded its
      promotion, and log[e], by the stage before it, no later than log[k], rests
      on that. */
  lemma {:induction false} AllUpstreamRan(config: Config, s: State, k: nat, path: seq<string>) returns (e: nat, i: nat, j: nat)
    requires EventsOk(config, s.versions, s.registry, s.log) && k < |s.log| && GoesUpstream(s.log, k, path) && |path| > 1
    ensures j < e <= k && s.log[j].stage == path[|path| - 1] && s.log[e].stage == path[|path| - 2]
    ensures s.log[e].entry.revision == s.log[j].entry.revision == s.log[k].entry.revision
    ensures i < |s.log[e].stages| && UpstreamRan(s.versions, s.registry, s.log[e], i, s.log[j])
    decreases k
  {
    assert path[0 + 1] in OrdersOf(s.log[k].stages);
    var again, up, at := OneRanBefore(config, s, k, path[1]);
    if again {
      RestGoesUpstream(s.log, k, path, up, 0);
      assert path[0..] == path;
      e, i, j := AllUpstreamRan(config, s, up, path);
    } else if |path| == 2 {
      e, i, j := k, at, up;
    } else {
      var rest := path[1..];
      RestGoesUpstream(s.log, k, path, up, 1);
      assert rest[|rest| - 1] == path[|path| - 1] && rest[|rest| - 2] == path[|path| - 2];
      e, i, j := AllUpstreamRan(config, s, up, rest);
    }
  }

  /** In the history t, the stage's Order runs or ran the revision, promoted
      before, without interruption for the soak of the stage. */
  ghost predicate RanIn(t: Tracked, registry: map<string, Statement>, log: seq<Event>, stage: G.Stage, revision: string, now: Time)
    requires |t.ids| == |t.h|
  {
    exists j: nat, m: nat :: j < |log| && Ran(t, registry, stage, revision, now, log[j], m) && Uninterrupted(t, m)
  }

  /** That is so in the newest version of its history. */
  ghost predicate RanByNow(s: State, registry: map<string, Statement>, stage: G.Stage, revision: string) {
    && stage.order in s.versions && s.versions[stage.order] != []
    && RanIn(s.versions[stage.order][|s.versions[stage.order]| - 1], registry, s.log, stage, revision, s.clock)
  }

  lemma {:induction false} ReadNewest(s: State, registry: map<string, Statement>, ev: Event, i: nat, j: nat)
    requires i < |ev.stages| && j < |s.log| && UpstreamRan(s.versions, registry, ev, i, s.log[j]) && ev.at == s.clock
    requires forall o :: o in ev.read && o in s.versions ==> ev.read[o] + 1 == |s.versions[o]|
    ensures RanByNow(s, registry, ev.stages[i], ev.entry.revision)
  {
    var order := ev.stages[i].order;
    var t := s.versions[order][ev.read[order]];
    var m: nat :| Ran(t, registry, ev.stages[i], ev.entry.revision, ev.at, s.log[j], m) && Uninterrupted(t, m) && Cites(registry, ev, i, t.h[m]);
    assert RanIn(t, registry, s.log, ev.stages[i], ev.entry.revision, s.clock);
  }

  /** ev has no upstream stages, or its stage promoted the Preparation before, or
      every upstream stage ran the revision by now. */
  ghost predicate SafeByNow(s: State, registry: map<string, Statement>, ev: Event) {
    || ev.stages == []
    || (exists j :: 0 <= j < |s.log| && s.log[j].stage == ev.stage && s.log[j].entry.preparation == ev.entry.preparation)
    || (forall i :: 0 <= i < |ev.stages| ==> RanByNow(s, registry, ev.stages[i], ev.entry.revision))
  }

  lemma {:induction false} GroundedIsSafeByNow(s: State, registry: map<string, Statement>, ev: Event)
    requires Grounded(s.versions, registry, s.log + [ev], |s.log|) && ev.at == s.clock
    requires forall o :: o in ev.read && o in s.versions ==> ev.read[o] + 1 == |s.versions[o]|
    ensures SafeByNow(s, registry, ev)
  {
    var log, k := s.log + [ev], |s.log|;
    if ev.stages != [] {
      if exists j :: 0 <= j < k && log[j].stage == ev.stage && log[j].entry.preparation == ev.entry.preparation {
        var j :| 0 <= j < k && log[j].stage == ev.stage && log[j].entry.preparation == ev.entry.preparation;
        assert s.log[j] == log[j];
      } else {
        forall i | 0 <= i < |ev.stages| ensures RanByNow(s, registry, ev.stages[i], ev.entry.revision) {
          assert GroundedAt(s.versions, registry, log, k, i);
          var j :| 0 <= j < k && UpstreamRan(s.versions, registry, ev, i, log[j]);
          ReadNewest(s, registry, ev, i, j);
        }
      }
    }
  }

  /** When a reconcile reads the current histories of the upstream stages, each
      of them ran the revision healthily and undegraded for its soak as of the
      promotion, unless the stage promoted the Preparation before. */
  lemma {:induction false} CurrentReadsAreSafe(config: Config, stages: set<string>, clock: Time, steps: seq<Promotions.Step>, states: seq<State>, k: nat)
    requires IsRun(config, stages, clock, steps, states) && k < |steps|
    requires steps[k].Promote? && steps[k].written.Some?
    requires forall o :: o in steps[k].read && o in states[k].versions ==> steps[k].read[o] + 1 == |states[k].versions[o]|
    ensures |states[k + 1].log| == |states[k].log| + 1
    ensures SafeByNow(states[k], states[k + 1].registry, states[k + 1].log[|states[k].log|])
  {
    var s, step := states[k], steps[k];
    RunKeeps(config, stages, clock, steps, states, k);
    PromoteKeepsRecords(config, s, step.pass, step.candidate, step.r, step.read, step.written);
    var ev := EventOf(s, s.passes[step.pass], step.candidate, step.read, step.written.value);
    assert (s.log + [ev])[|s.log|] == ev;
    assert states[k + 1] == TakePromote(s, step.pass, step.candidate, step.r, step.read, step.written);
    GroundedIsSafeByNow(s, states[k + 1].registry, ev);
  }

  // ------------------------------------------------------------------ write-ahead

  /** The registry has the promotion record of what an Application points at. */
  predicate AppRecorded(registry: map<string, Statement>, stage: string, app: App) {
    && app.record in registry && registry[app.record].PromotionRecord?
    && registry[app.record].order == stage && registry[app.record].digest == app.digest
  }

  /** st records the promotion of the pending entry of h, from when it says. */
  predicate RecordsPending(st: Statement, h: History) {
    st.PromotionRecord? && PromotionOf(st.order, st.mode, h, st.gates) == Some(st) && h != [] && st.time == h[0].started
  }

  /** It is the pending entry of a committed version of the stage's history. */
  predicate StartCommitted(versions: Versions, st: Statement) {
    st.PromotionRecord? ==>
      st.order in versions && exists v :: 0 <= v < |versions[st.order]| && RecordsPending(st, versions[st.order][v].h)
  }

  /** st records a deployment that h says was healthy since when it says. */
  predicate RecordsHealthy(st: Statement, h: History) {
    exists i :: 0 <= i < |h| && IsDeploymentOf(st, st.order, h[i]) && st.healthyTime == h[i].healthy
  }

  /** A committed version of the stage's history says so, and st names the record
      of the promotion. */
  predicate HealthyCommitted(versions: Versions, registry: map<string, Statement>, st: Statement) {
    st.DeploymentRecord? ==>
      && st.order in versions && (exists v :: 0 <= v < |versions[st.order]| && RecordsHealthy(st, versions[st.order][v].h))
      && AppRecorded(registry, st.order, App(st.digest, st.promotion))
  }

  lemma {:induction false} AheadIsRecorded(versions: Versions, registry: map<string, Statement>, ev: Event)
    requires WrittenAhead(versions, registry, ev)
    ensures AppRecorded(registry, ev.stage, App(ev.entry.digest, ev.record))
  {
  }

  lemma {:induction false} AppsAreRecorded(config: Config, s: State, stage: string)
    requires Inv(config, s) && stage in s.apps
    ensures AppRecorded(s.registry, stage, s.apps[stage])
  {
    assert AppOk(s.log, stage, s.apps[stage]);
    var k :| 0 <= k < |s.log| && s.log[k].stage == stage && s.log[k].entry.digest == s.apps[stage].digest && s.log[k].record == s.apps[stage].record;
    AheadIsRecorded(s.versions, s.registry, s.log[k]);
  }

  lemma {:induction false} PendingIsRecorded(st: Statement, order: string, h: History)
    requires st.PromotionRecord? && PromotionOf(order, st.mode, h, st.gates) == Some(st) && WellFormed(h)
    ensures RecordsPending(st, h) && st.order == order
  {
    assert EntryOk(h[0]);
  }

  lemma {:induction false} PromotionsAreCommitted(config: Config, s: State, d: string)
    requires Inv(config, s) && d in s.registry
    ensures StartCommitted(s.versions, s.registry[d])
  {
    assert RecordOk(s.versions, s.log, d, s.registry[d]);
    if s.registry[d].PromotionRecord? {
      var k :| 0 <= k < |s.log| && s.log[k].record == d;
      var ev := s.log[k];
      assert WrittenAhead(s.versions, s.registry, ev);
      assert HistoryOk(config, s.log, ev.stage, s.versions[ev.stage][ev.base]);
      PendingIsRecorded(s.registry[d], ev.stage, s.versions[ev.stage][ev.base].h);
    }
  }

  lemma {:induction false} HealthyIsRecorded(log: seq<Event>, st: Statement, order: string, h: History, i: nat) returns (k: nat)
    requires WellFormed(h) && AllLogged(log, order, h) && i < |h| && IsDeploymentOf(st, order, h[i])
    ensures RecordsHealthy(st, h) && st.order == order
    ensures k < |log| && log[k].stage == order && log[k].entry.digest == st.digest && log[k].record == st.promotion
  {
    assert EntryOk(h[i]);
    assert Logged(log, order, h[i]);
    k :| 0 <= k < |log| && IsOf(log[k], order, h[i]);
    assert Identity(h[i]).digest == st.digest && Identity(h[i]).promotionRecord == st.promotion;
  }

  lemma {:induction false} DeploymentsAreCommitted(config: Config, s: State, d: string)
    requires Inv(config, s) && d in s.registry
    ensures HealthyCommitted(s.versions, s.registry, s.registry[d])
  {
    var st := s.registry[d];
    assert RecordOk(s.versions, s.log, d, st);
    if st.DeploymentRecord? {
      var o, v, i :| o in s.versions && 0 <= v < |s.versions[o]| && 0 <= i < |s.versions[o][v].h| && IsDeploymentOf(st, o, s.versions[o][v].h[i]);
      assert HistoryOk(config, s.log, o, s.versions[o][v]);
      var k := HealthyIsRecorded(s.log, st, o, s.versions[o][v].h, i);
      AheadIsRecorded(s.versions, s.registry, s.log[k]);
    }
  }

  /** Whatever crashes, conflicts and errors come in between: an Application only
      ever points at an artifact whose promotion record was pushed before, every
      promotion record says what a committed status said was pending, and every
      deployment record says what a committed status said was healthy. */
  lemma {:induction false} RecordsAreWrittenAhead(config: Config, stages: set<string>, clock: Time, steps: seq<Promotions.Step>, states: seq<State>, k: nat)
    requires IsRun(config, stages, clock, steps, states) && k < |states|
    ensures var s := states[k];
            && (forall stage :: stage in s.apps ==> AppRecorded(s.registry, stage, s.apps[stage]))
            && (forall d :: d in s.registry ==> StartCommitted(s.versions, s.registry[d]) && HealthyCommitted(s.versions, s.registry, s.registry[d]))
  {
    RunKeeps(config, stages, clock, steps, states, k);
    var s := states[k];
    forall stage | stage in s.apps ensures AppRecorded(s.registry, stage, s.apps[stage]) {
      AppsAreRecorded(config, s, stage);
    }
    forall d | d in s.registry ensures StartCommitted(s.versions, s.registry[d]) && HealthyCommitted(s.versions, s.registry, s.registry[d]) {
      PromotionsAreCommitted(config, s, d);
      DeploymentsAreCommitted(config, s, d);
    }
  }
}
