/** What a reconcile of a Serving promotes, and what it leaves as it is. */
module ServingProperties {
  import opened Options
  import opened Times
  import opened GateProperties
  import opened Histories
  import opened HistoryRuns
  import opened Preparations
  import opened Servings
  import A = Approvals
  import G = Gate

  ghost predicate WasPromoted(h: History, preparation: string) {
    exists e :: e in h && e.preparation == preparation && e.Promoted()
  }

  /** The newest deployment of the revision by the upstream stage that was healthy
      and undegraded for its soak has a record that verifies. */
  ghost predicate RanVerifiably(req: G.Request, records: map<G.Qualified, Verification>, stage: G.Stage) {
    exists e :: IsNewestQualifying(req, stage, e) && G.Qualified(stage, e) in records && records[G.Qualified(stage, e)] == Verifies
  }

  /** The stage may promote candidate for all its upstream stages did. */
  ghost predicate UpstreamClear(candidate: Preparation, self: History, r: Reads) {
    var known := WasPromoted(self, candidate.name);
    || (candidate.stages == [] && (known || r.requirements == Some([])))
    || (&& r.orders.Some?
        && (known || (&& r.requirements.Some? && RequirementsMet(candidate.stages, r.orders.value, r.requirements.value)
                      && forall s :: s in candidate.stages ==> RanVerifiably(RequestOf(candidate, self, r), r.records, s))))
  }

  /** The upstream gate lets a candidate through exactly when nothing is required
      of it; when the stage promoted it before; or when the stages it names meet
      what its Environment requires, and each ran the revision verifiably. */
  lemma UpstreamSatisfiedIff(candidate: Preparation, self: History, r: Reads)
    ensures UpstreamOf(candidate, self, r).Some? && UpstreamOf(candidate, self, r).value.Satisfied() <==> UpstreamClear(candidate, self, r)
  {
    if candidate.stages != [] && r.orders.Some? {
      GateIsClear(RequestOf(candidate, self, r), r.records);
    }
  }

  lemma GateIsClear(req: G.Request, records: map<G.Qualified, Verification>)
    requires req.stages != []
    ensures var result := G.ResultOf(req);
            && result.outcome == G.Satisfied && FirstFailure(result.qualified, records) == Verifies <==>
            WasPromoted(req.self, req.preparation) || forall s :: s in req.stages ==> RanVerifiably(req, records, s)
  {
    var result := G.ResultOf(req);
    SatisfiedIff(req);
    if !PromotedHereBefore(req) {
      if result.outcome == G.Satisfied {
        QualifiedLinesUp(req);
        var q := result.qualified;
        forall i | 0 <= i < |q| ensures RanVerifiably(req, records, req.stages[i]) <==> q[i] in records && records[q[i]] == Verifies {
          if e :| IsNewestQualifying(req, q[i].stage, e) && G.Qualified(q[i].stage, e) in records && records[G.Qualified(q[i].stage, e)] == Verifies {
            NewestIsOne(req, q[i].stage, e, q[i].entry);
          }
        }
        AllOfBoth(req, records, q);
      } else {
        var i :| 0 <= i < |req.stages| && !HasQualifying(req, req.stages[i]);
        assert !RanVerifiably(req, records, req.stages[i]);
      }
    }
  }

  lemma AllOfBoth(req: G.Request, records: map<G.Qualified, Verification>, q: seq<G.Qualified>)
    requires |q| == |req.stages|
    requires forall i :: 0 <= i < |q| ==> (RanVerifiably(req, records, req.stages[i]) <==> q[i] in records && records[q[i]] == Verifies)
    ensures (forall x :: x in q ==> x in records && records[x] == Verifies) <==>
            forall s :: s in req.stages ==> RanVerifiably(req, records, s)
  {
    if forall x :: x in q ==> x in records && records[x] == Verifies {
      forall s | s in req.stages ensures RanVerifiably(req, records, s) {
        var i :| 0 <= i < |req.stages| && req.stages[i] == s;
        assert q[i] in q;
      }
    } else {
      var x :| x in q && !(x in records && records[x] == Verifies);
      var i :| 0 <= i < |q| && q[i] == x;
      assert req.stages[i] in req.stages;
    }
  }

  /** No policy applies, or the votes are archived and those sealed approve. */
  ghost predicate ApprovalClear(candidate: Preparation) {
    candidate.policy.None? || (A.IsArchived(candidate) && A.Approving(candidate.policy.value, candidate.status.approval.value.votes))
  }

  lemma DecisionWhen(h: History, candidate: Preparation, r: Reads)
    ensures var d, upstream := DecisionOf(h, candidate, r), UpstreamOf(candidate, Drop(h), r);
            && (d.Opens? || d.Starts? <==>
                  && Next(h, candidate.name) != StepDeployed && candidate.status.evidence
                  && upstream.Some? && upstream.value.Satisfied()
                  && r.checks.Some? && r.checks.value.passed
                  && r.approvals.Some? && Admits(candidate, r.approvals.value)
                  && r.evidence == Some(true))
            && (d.Starts? ==> d.gates.approvals == ApprovalsEvidence(candidate))
  {
  }

  lemma AdmitsIff(candidate: Preparation, votes: seq<Approval>)
    ensures Admits(candidate, votes) <==> ApprovalClear(candidate)
  {
    A.GateBlocksIff(candidate, votes);
  }

  /** A candidate is promoted, in two steps, exactly when it is not what runs and
      passes every gate: it is Ready, its upstream stages ran it, its checks pass,
      its votes are archived and approve, and its evidence verifies. */
  lemma PromotesIff(h: History, candidate: Preparation, r: Reads)
    ensures var d := DecisionOf(h, candidate, r);
            d.Opens? || d.Starts? <==>
              && (Deployed(h).Some? ==> Deployed(h).value.preparation != candidate.name)
              && candidate.status.evidence
              && UpstreamClear(candidate, Drop(h), r)
              && r.checks.Some? && r.checks.value.passed
              && r.approvals.Some? && ApprovalClear(candidate)
              && r.evidence == Some(true)
  {
    DecisionWhen(h, candidate, r);
    UpstreamSatisfiedIff(candidate, Drop(h), r);
    if r.approvals.Some? {
      AdmitsIff(candidate, r.approvals.value);
    }
  }

  lemma UpstreamIgnoresVotes(candidate: Preparation, self: History, r: Reads, votes: Option<seq<Approval>>)
    ensures UpstreamOf(candidate, self, r.(approvals := votes)) == UpstreamOf(candidate, self, r)
  {
  }

  lemma AdmittedAlike(h: History, candidate: Preparation, r: Reads, votes: seq<Approval>)
    requires r.approvals.Some? && Admits(candidate, r.approvals.value) == Admits(candidate, votes)
    ensures DecisionOf(h, candidate, r.(approvals := Some(votes))) == DecisionOf(h, candidate, r)
  {
    UpstreamIgnoresVotes(candidate, Drop(h), r, Some(votes));
    var s := r.(approvals := Some(votes));
    var step := Next(h, candidate.name);
    if UpstreamOf(candidate, Drop(h), r).Some? && r.checks.Some? {
      AdvanceIgnoresVotes(step, candidate, UpstreamOf(candidate, Drop(h), r).value, r.checks.value, r, s);
    }
  }

  lemma AdvanceIgnoresVotes(step: Step, candidate: Preparation, upstream: Upstream, checks: Checks, r: Reads, s: Reads)
    requires r.evidence == s.evidence
    ensures AdvanceOf(step, candidate, upstream, checks, r) == AdvanceOf(step, candidate, upstream, checks, s)
  {
  }

  /** With an approval policy, only a Preparation whose votes are sealed and
      archived, and approve, is promoted; its record names the attestation; and
      no vote that was cast since changes what is decided. */
  lemma PromotesOnlyArchived(h: History, candidate: Preparation, r: Reads)
    requires candidate.policy.Some?
    requires DecisionOf(h, candidate, r).Opens? || DecisionOf(h, candidate, r).Starts?
    ensures A.IsArchived(candidate) && A.Approving(candidate.policy.value, candidate.status.approval.value.votes)
    ensures DecisionOf(h, candidate, r).Starts? ==>
              DecisionOf(h, candidate, r).gates.approvals == Some(candidate.status.approval.value.attestation.value.digest)
    ensures forall votes :: DecisionOf(h, candidate, r.(approvals := Some(votes))) == DecisionOf(h, candidate, r)
  {
    DecisionWhen(h, candidate, r);
    AdmitsIff(candidate, r.approvals.value);
    forall votes ensures DecisionOf(h, candidate, r.(approvals := Some(votes))) == DecisionOf(h, candidate, r) {
      AdmitsIff(candidate, votes);
      AdmittedAlike(h, candidate, r, votes);
    }
  }

  /** Until a promotion starts, what is deployed stays deployed. */
  lemma HoldsKeepWhatRuns(h: History, candidate: Preparation, r: Reads)
    requires WellFormed(h) && IsSet(Seconds(r.now)) && (r.pushed.Some? ==> r.pushed.value != "")
    ensures WellFormed(PromotedHistory(h, candidate, r))
    ensures if DecisionOf(h, candidate, r).Starts? && r.pushed.Some?
            then h != [] && h[0].preparation == candidate.name
                 && WhatRuns(PromotedHistory(h, candidate, r)) == Some(Identity(h[0].(promotionRecord := r.pushed.value)))
            else WhatRuns(PromotedHistory(h, candidate, r)) == WhatRuns(h)
  {
    var op := OperationOf(DecisionOf(h, candidate, r), candidate, r);
    if op.Some? {
      OnlyStartChangesWhatRuns(h, op.value);
      ApplyKeeps(h, op.value);
    }
  }

  /** Recording deployments is a sequence of reports. */
  lemma {:induction false} RecordedIsReports(h: History, todo: seq<Entry>, recordings: map<Entry, Recording>) returns (ops: seq<Op>)
    requires RecordedAll(h, todo, recordings).Some? && forall e :: e in todo ==> IsSet(e.healthy)
    ensures AllReports(ops) && RecordedAll(h, todo, recordings).value == ApplyAll(h, ops)
    decreases |todo|
  {
    if todo == [] {
      ops := [];
    } else {
      var e := todo[0];
      assert forall f :: f in todo[1..] ==> f in todo;
      if recordings[e].RecordPushed? {
        var op := OpRecord(e.digest, e.healthy, recordings[e].digest);
        var rest := RecordedIsReports(Apply(h, op), todo[1..], recordings);
        ops := [op] + rest;
        ApplyFirst(h, op, rest);
      } else {
        ops := RecordedIsReports(h, todo[1..], recordings);
      }
    }
  }

  lemma {:induction false} ApplyFirst(h: History, op: Op, rest: seq<Op>)
    ensures ApplyAll(h, [op] + rest) == ApplyAll(Apply(h, op), rest)
  {
    if rest == [] {
      ApplyOne(h, [], op);
      assert [op] + rest == [] + [op];
    } else {
      var n := |rest| - 1;
      ApplyFirst(h, op, rest[..n]);
      ApplyOne(h, [op] + rest[..n], rest[n]);
      ApplyOne(Apply(h, op), rest[..n], rest[n]);
      assert rest[..n] + [rest[n]] == rest;
      assert ([op] + rest[..n]) + [rest[n]] == [op] + rest;
    }
  }

  /** Deploying changes neither what runs, nor the pending entry, nor what its
      promotion record says came before. */
  lemma DeployKeepsPromotion(h: History, r: DeployReads)
    requires WellFormed(h) && IsSet(Seconds(r.now))
    ensures var d := DeployedHistory(h, r);
            && WellFormed(d) && Pending(d) == Pending(h) && WhatRuns(d) == WhatRuns(h)
            && (Pending(h).Some? ==> Previous(d) == Previous(h))
  {
    var d := DeployedHistory(h, r);
    if d != h {
      var ops := [OpObserve(r.observation, r.now)];
      if Observed(h, r.observation, r.now) != h {
        ApplyOne(h, [], ops[0]);
        assert [] + [ops[0]] == ops;
      } else {
        ops := RecordedIsReports(h, UnrecordedOf(h), r.recordings);
      }
      ReportsKeepPromotion(h, ops);
    }
  }

  // ------------------------------------------------------------------ the status

  /** A history entry as the status stores it: unset times and an unset Registry
      are absent, and times are in seconds. */
  datatype StoredEntry = StoredEntry(
    preparation: string,
    digest: string,
    ociRef: string,
    registry: Option<string>,
    revision: string,
    started: Time,
    healthy: Option<Time>,
    ended: Option<Time>,
    endReason: EndReason,
    promotionRecord: string,
    deploymentRecord: string)

  function OptionalTime(t: Time): Option<Time> {
    if IsSet(t) then Some(Seconds(t)) else None
  }

  function Stored(e: Entry): StoredEntry {
    StoredEntry(e.preparation, e.digest, e.ociRef, if e.registry == "" then None else Some(e.registry), e.revision,
                Seconds(e.started), OptionalTime(e.healthy), OptionalTime(e.ended), e.endReason, e.promotionRecord, e.deploymentRecord)
  }

  function Loaded(s: StoredEntry): Entry {
    Entry(s.preparation, s.digest, s.ociRef, if s.registry.Some? then s.registry.value else "", s.revision,
          s.started, if s.healthy.Some? then s.healthy.value else 0, if s.ended.Some? then s.ended.value else 0,
          s.endReason, s.promotionRecord, s.deploymentRecord)
  }

  method SetHistory(h: History) returns (stored: seq<StoredEntry>)
    ensures |stored| == |h| && forall i :: 0 <= i < |h| ==> stored[i] == Stored(h[i])
  {
    stored := [];
    for i := 0 to |h|
      invariant |stored| == i
      invariant forall j :: 0 <= j < i ==> stored[j] == Stored(h[j])
    {
      stored := stored + [Stored(h[i])];
    }
  }

  method HistoryOf(stored: seq<StoredEntry>) returns (h: History)
    ensures |h| == |stored| && forall i :: 0 <= i < |h| ==> h[i] == Loaded(stored[i])
  {
    h := [];
    for i := 0 to |stored|
      invariant |h| == i
      invariant forall j :: 0 <= j < i ==> h[j] == Loaded(stored[j])
    {
      h := h + [Loaded(stored[i])];
    }
  }

  /** An entry survives the status exactly when its times are whole seconds, as
      those of every history a stage can reach are. */
  lemma StoredSurvivesIff(e: Entry)
    ensures Loaded(Stored(e)) == e <==> Whole(e.started) && Whole(e.healthy) && Whole(e.ended)
    ensures EntryOk(e) ==> Loaded(Stored(e)) == e
  {
  }
}
