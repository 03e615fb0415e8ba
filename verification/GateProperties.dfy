/** What the gate decides, and when it decides something else. */
module GateProperties {
  import opened Options
  import opened Times
  import opened Histories
  import opened HistoryRuns
  import opened Gate

  // ------------------------------------------------------------- the decision

  /** The upstream Order of stage exists, is a variant of the same Product, and
      e is a deployment of the revision by it that qualifies. */
  predicate QualifiesFor(req: Request, stage: Stage, e: Entry) {
    && stage.order in req.upstreams
    && req.upstreams[stage.order].product == req.product
    && e in req.upstreams[stage.order].history
    && e.revision == req.revision
    && e.Promoted() && IsSet(e.healthy) && e.endReason != Degraded
    && HealthyFor(e, req.now) >= stage.Soak()
    && e.deploymentRecord != ""
  }

  ghost predicate HasQualifying(req: Request, stage: Stage) {
    exists e :: QualifiesFor(req, stage, e)
  }

  /** e is the newest of the deployments that qualify. */
  ghost predicate IsNewestQualifying(req: Request, stage: Stage, e: Entry) {
    && stage.order in req.upstreams
    && var h := req.upstreams[stage.order].history;
       exists k :: 0 <= k < |h| && h[k] == e && QualifiesFor(req, stage, e) && forall j :: 0 <= j < k ==> !QualifiesFor(req, stage, h[j])
  }

  lemma NewestIsOne(req: Request, stage: Stage, e: Entry, f: Entry)
    requires IsNewestQualifying(req, stage, e) && IsNewestQualifying(req, stage, f)
    ensures e == f
  {
    var h := req.upstreams[stage.order].history;
    var k :| 0 <= k < |h| && h[k] == e && QualifiesFor(req, stage, e) && forall j :: 0 <= j < k ==> !QualifiesFor(req, stage, h[j]);
    var l :| 0 <= l < |h| && h[l] == f && QualifiesFor(req, stage, f) && forall j :: 0 <= j < l ==> !QualifiesFor(req, stage, h[j]);
    assert !(k < l) && !(l < k);
  }

  lemma StageSatisfiedIff(req: Request, stage: Stage)
    ensures VerdictOf(req, stage).outcome == Satisfied <==> HasQualifying(req, stage)
    ensures VerdictOf(req, stage).outcome == Satisfied ==> QualifiesFor(req, stage, VerdictOf(req, stage).qualified.value)
    ensures VerdictOf(req, stage).outcome == Satisfied ==> IsNewestQualifying(req, stage, VerdictOf(req, stage).qualified.value)
  {
    if stage.order in req.upstreams && req.upstreams[stage.order].product == req.product {
      var h := req.upstreams[stage.order].history;
      var q := FirstQualifying(h, req.revision, stage, req.now);
      if q < |h| {
        assert QualifiesFor(req, stage, h[q]);
        forall j | 0 <= j < q ensures !QualifiesFor(req, stage, h[j]) {
          assert !Qualifies(h[j], req.revision, stage, req.now);
        }
      } else {
        forall e ensures !QualifiesFor(req, stage, e) {
          if e in h {
            assert !Qualifies(e, req.revision, stage, req.now);
          }
        }
      }
    }
  }

  predicate PromotedHereBefore(req: Request) {
    exists e :: e in req.self && e.preparation == req.preparation && e.Promoted()
  }

  /** The gate lets a Preparation through exactly when it names no stages, the
      stage promoted it before, or every stage has a deployment that qualifies. */
  lemma SatisfiedIff(req: Request)
    ensures ResultOf(req).outcome == Satisfied <==>
            || req.stages == []
            || PromotedHereBefore(req)
            || forall i :: 0 <= i < |req.stages| ==> HasQualifying(req, req.stages[i])
  {
    var vs := VerdictsOf(req, |req.stages|);
    forall i | 0 <= i < |req.stages|
      ensures HasQualifying(req, req.stages[i]) <==> vs[i].outcome == Satisfied
    {
      StageSatisfiedIff(req, req.stages[i]);
    }
    if Worst(vs) == Satisfied {
      forall i | 0 <= i < |req.stages| ensures HasQualifying(req, req.stages[i]) {
        assert vs[i] in vs;
      }
    } else {
      var v :| v in vs && v.outcome == Worst(vs);
      var i :| 0 <= i < |vs| && vs[i] == v;
      assert !HasQualifying(req, req.stages[i]);
    }
  }

  lemma {:induction false} QualifiedCovers(stages: seq<Stage>, vs: seq<Verdict>)
    requires |vs| <= |stages|
    requires forall v :: v in vs ==> v.outcome == Satisfied && v.qualified.Some?
    ensures var q := QualifiedOf(stages, vs);
            |q| == |vs| && forall i :: 0 <= i < |q| ==> q[i] == Qualified(stages[i], vs[i].qualified.value)
  {
    if vs != [] {
      QualifiedCovers(stages, vs[..|vs| - 1]);
    }
  }

  /** Qualified lines up with the stages: at each position, that stage and the
      newest deployment of its own that qualifies the revision. */
  lemma QualifiedLinesUp(req: Request)
    requires ResultOf(req).outcome == Satisfied
    ensures req.stages == [] || PromotedHereBefore(req) ==> ResultOf(req).qualified == []
    ensures req.stages != [] && !PromotedHereBefore(req) ==>
              var q := ResultOf(req).qualified;
              && |q| == |req.stages|
              && ResultOf(req).promotion == ""
              && forall i :: 0 <= i < |q| ==>
                   && q[i].stage == req.stages[i]
                     && QualifiesFor(req, q[i].stage, q[i].entry) && IsNewestQualifying(req, q[i].stage, q[i].entry)
  {
    var vs := VerdictsOf(req, |req.stages|);
    if req.stages != [] && !PromotedHereBefore(req) {
      assert forall v :: v in vs ==> Severity(v.outcome) <= 0;
      QualifiedCovers(req.stages, vs);
      forall i | 0 <= i < |req.stages| ensures QualifiesFor(req, req.stages[i], vs[i].qualified.value) && IsNewestQualifying(req, req.stages[i], vs[i].qualified.value)
      {
        StageSatisfiedIff(req, req.stages[i]);
      }
    }
  }

  /** at picks, in order, exactly the positions of vs with outcome o. */
  predicate Picks(vs: seq<Verdict>, o: Outcome, at: seq<nat>) {
    && (forall k :: 0 <= k < |at| ==> at[k] < |vs| && vs[at[k]].outcome == o)
    && (forall k, l :: 0 <= k < l < |at| ==> at[k] < at[l])
    && (forall i :: 0 <= i < |vs| && vs[i].outcome == o ==> i in at)
  }

  lemma {:induction false} PicksOneMore(vs: seq<Verdict>, o: Outcome, front: seq<nat>)
    requires vs != [] && Picks(vs[..|vs| - 1], o, front)
    ensures Picks(vs, o, front + if vs[|vs| - 1].outcome == o then [|vs| - 1] else [])
  {
    var n := |vs| - 1;
    forall i | 0 <= i < n && vs[i].outcome == o ensures i in front {
      assert vs[..n][i].outcome == o;
    }
    if vs[n].outcome == o {
      assert (front + [n])[|front|] == n;
    }
  }

  lemma {:induction false} MessagesInOrder(vs: seq<Verdict>, o: Outcome) returns (at: seq<nat>)
    requires forall v :: v in vs && v.outcome == o ==> v.message.Some?
    ensures Picks(vs, o, at) && |MessagesOf(vs, o)| == |at|
    ensures forall k :: 0 <= k < |at| ==> vs[at[k]].message == Some(MessagesOf(vs, o)[k])
  {
    at := [];
    if vs != [] {
      var n := |vs| - 1;
      var front := MessagesInOrder(vs[..n], o);
      PicksOneMore(vs, o, front);
      at := front + if vs[n].outcome == o then [n] else [];
      assert vs[n] in vs;
    }
  }

  /** A gate that holds reports the most severe outcome of its stages, with the
      messages of exactly the stages of that outcome, in order. */
  lemma HeldReportsTheWorst(req: Request) returns (at: seq<nat>)
    requires ResultOf(req).outcome != Satisfied
    ensures var vs, r := VerdictsOf(req, |req.stages|), ResultOf(req);
            && (forall v :: v in vs ==> Severity(v.outcome) <= Severity(r.outcome))
            && at != [] && Picks(vs, r.outcome, at)
            && r.message.Held? && |r.message.messages| == |at|
            && (forall k :: 0 <= k < |at| ==> vs[at[k]].message == Some(r.message.messages[k]))
            && r.qualified == [] && r.promotion == ""
  {
    var vs := VerdictsOf(req, |req.stages|);
    at := MessagesInOrder(vs, Worst(vs));
    var v :| v in vs && v.outcome == Worst(vs);
    var i :| 0 <= i < |vs| && vs[i] == v;
    assert i in at;
  }

  // -------------------------------------------------------- what never counts

  predicate EndedEarly(e: Entry) {
    !e.Running() && e.ended < e.healthy
  }

  /** A deployment that ended before it was first healthy never qualifies. */
  lemma EndedBeforeHealthyNeverQualifies(e: Entry, revision: string, stage: Stage, now: Time)
    requires EndedEarly(e)
    ensures !Qualifies(e, revision, stage, now) && !Waits(e, revision, stage, now)
  {
  }

  /** Starting leaves such a deployment exactly when the deployed one still runs
      and was reported healthy only after the next one was opened. */
  lemma StartEndsEarlyIff(h: History, record: string)
    requires WellFormed(h) && record != ""
    ensures var r := Started(h, record);
            (exists i :: 0 <= i < |h| && EndedEarly(r[i]) && !EndedEarly(h[i])) <==>
            Pending(h).Some? && Deployed(h).Some? && Deployed(h).value.Running() && h[0].started < Deployed(h).value.healthy
  {
    HeadOrNext(h);
    var r := Started(h, record);
    if Pending(h).Some? {
      StartHandsOver(h, record);
      assert !EndedEarly(r[0]);
      if |h| > 1 && h[1].Running() && h[0].started < h[1].healthy {
        assert EntryOk(h[0]) && EndedEarly(r[1]) && !EndedEarly(h[1]);
      }
    }
  }

  function Sample(name: string): Entry {
    Entry(name, name, name, "", "rev", 0, 0, 0, NotEnded, "", "")
  }

  /** Such a deployment is reachable: a report between opening and starting the
      next promotion makes the first one healthy after its end. */
  lemma EndedBeforeHealthyIsReachable()
    ensures var ops := [OpOpen(Sample("a"), 10 * SECOND), OpStart("r"), OpOpen(Sample("b"), 20 * SECOND),
                        OpObserve(Observation("a", Healthy), 30 * SECOND), OpStart("s")];
            && AllValid(ops)
            && var h := ApplyAll([], ops);
            && |h| == 2 && h[1].Promoted() && h[1].endReason == Superseded && 0 < h[1].ended < h[1].healthy
  {
    var a, b := Sample("a"), Sample("b");
    var op1, op2, op3 := OpOpen(a, 10 * SECOND), OpStart("r"), OpOpen(b, 20 * SECOND);
    var op4, op5 := OpObserve(Observation("a", Healthy), 30 * SECOND), OpStart("s");
    var h1 := [PendingEntry(a, 10 * SECOND)];
    assert Apply([], op1) == h1;
    var h2 := [h1[0].(promotionRecord := "r")];
    assert NewestPromoted(h1[1..]) == 0;
    assert Apply(h1, op2) == h2;
    var h3 := [PendingEntry(b, 20 * SECOND)] + h2;
    assert Apply(h2, op3) == h3;
    var h4 := [h3[0], h2[0].(healthy := 30 * SECOND)];
    NewestPromotedIs(h3, 1);
    assert Apply(h3, op4) == h4;
    NewestPromotedIs(h4[1..], 0);
    var h5 := Apply(h4, op5);
    Unfold5(op1, op2, op3, op4, op5);
  }

  lemma Unfold5(a: Op, b: Op, c: Op, d: Op, e: Op)
    ensures ApplyAll([], [a, b, c, d, e]) == Apply(Apply(Apply(Apply(Apply([], a), b), c), d), e)
  {
    assert [a] == [] + [a] && [a, b] == [a] + [b] && [a, b, c] == [a, b] + [c];
    assert [a, b, c, d] == [a, b, c] + [d] && [a, b, c, d, e] == [a, b, c, d] + [e];
    ApplyOne([], [], a);
    ApplyOne([], [a], b);
    ApplyOne([], [a, b], c);
    ApplyOne([], [a, b, c], d);
    ApplyOne([], [a, b, c, d], e);
  }

  // ------------------------------------------------------------------ waking up

  predicate SameButTime(req: Request, later: Request) {
    later == req.(now := later.now) && req.now <= later.now
  }

  /** A satisfied gate stays satisfied while nothing but time passes. */
  lemma SatisfiedIsMonotone(req: Request, later: Request)
    requires SameButTime(req, later) && ResultOf(req).outcome == Satisfied
    ensures ResultOf(later).outcome == Satisfied
  {
    SatisfiedIff(req);
    SatisfiedIff(later);
    if req.stages != [] && !PromotedHereBefore(req) {
      forall i | 0 <= i < |later.stages| ensures HasQualifying(later, later.stages[i]) {
        assert HasQualifying(req, req.stages[i]);
        var e :| QualifiesFor(req, req.stages[i], e);
        assert QualifiesFor(later, later.stages[i], e);
      }
    }
  }

  predicate AllWellFormed(req: Request) {
    forall o :: o in req.upstreams ==> WellFormed(req.upstreams[o].history)
  }

  /** The soak of e for stage ends less than 2^63 nanoseconds (292 years) after
      now, so that what remains of it can be represented. */
  predicate InRange(e: Entry, stage: Stage, now: Time) {
    e.healthy + stage.Soak() - now <= MAX_DURATION
  }

  /** Out of range a wakeup is missed: an upstream entry whose clock is set 292
      years ahead soaks, without a wakeup, and qualifies later. */
  lemma OutOfRangeMissesTheWakeup() returns (req: Request, later: Request)
    ensures SameButTime(req, later) && AllWellFormed(req)
    ensures ResultOf(req).outcome == Soaking && ResultOf(req).requeueAfter == 0
    ensures ResultOf(later).outcome == Satisfied
  {
    var far := 9_300_000_000 * SECOND;
    var e := Sample("a").(started := SECOND, healthy := far, promotionRecord := "r", deploymentRecord := "d");
    var stage := Stage("dev", 0);
    req := Request("p", "product", "rev", [stage], [], map["dev" := Upstream("product", [e])], SECOND);
    later := req.(now := far);
    NewestPromotedIs([e], 0);
    RemainingIsExactIff(e, stage, SECOND);
    assert VerdictsOf(req, 1) == [VerdictOf(req, stage)];
    assert VerdictsOf(later, 1) == [VerdictOf(later, stage)];
    assert FirstQualifying([e], "rev", stage, SECOND) == 1;
    assert Waits(e, "rev", stage, SECOND) && Qualifies(e, "rev", stage, far);
  }

  /** What remains of a soak under way is its exact length while in range, and
      negative, so that no wakeup is set, as soon as it is out of range. */
  lemma RemainingIsExactIff(e: Entry, stage: Stage, now: Time)
    requires e.Running() && !Soaked(e, stage, now)
    ensures var r := WaitingVerdict(e, stage, now).remaining;
            if InRange(e, stage, now) then r == e.healthy + stage.Soak() - now > 0 else r < 0
  {
  }

  /** The upstream Order of stage exists and is a variant of the same Product. */
  predicate IsUpstream(req: Request, stage: Stage) {
    stage.order in req.upstreams && req.upstreams[stage.order].product == req.product
  }

  function QualifyingAt(req: Request, stage: Stage): nat
    requires stage.order in req.upstreams
  {
    FirstQualifying(req.upstreams[stage.order].history, req.revision, stage, req.now)
  }

  function WaitingAt(req: Request, stage: Stage): nat
    requires stage.order in req.upstreams
  {
    FirstWaiting(req.upstreams[stage.order].history, req.revision, stage, req.now)
  }

  /** No deployment of the revision by the stage qualifies, and the first that
      may yet qualify has not soaked. */
  predicate CountsDown(req: Request, stage: Stage) {
    && IsUpstream(req, stage)
    && var h := req.upstreams[stage.order].history;
       && QualifyingAt(req, stage) == |h|
       && WaitingAt(req, stage) < |h| && !Soaked(h[WaitingAt(req, stage)], stage, req.now)
  }

  function Awaited(req: Request, stage: Stage): Entry
    requires CountsDown(req, stage)
  {
    req.upstreams[stage.order].history[WaitingAt(req, stage)]
  }

  function SoakEndsAt(req: Request, stage: Stage): Time
    requires CountsDown(req, stage)
  {
    Awaited(req, stage).healthy + stage.Soak()
  }

  predicate CountsDownInRange(req: Request, stage: Stage) {
    CountsDown(req, stage) && InRange(Awaited(req, stage), stage, req.now)
  }

  /** No deployment of the revision by the stage qualifies or may yet. */
  predicate LacksDeployment(req: Request, stage: Stage) {
    IsUpstream(req, stage) ==>
      var h := req.upstreams[stage.order].history;
      QualifyingAt(req, stage) == |h| && WaitingAt(req, stage) == |h|
  }

  /** The stage has a deployment that qualifies, or would once it is recorded. */
  predicate HasSoaked(v: Verdict) {
    v.outcome == Satisfied || (v.outcome == Soaking && v.message.Some? && v.message.value.Recording?)
  }

  predicate SameVerdict(v: Verdict, w: Verdict) {
    v.outcome == w.outcome && v.message == w.message
  }

  /** While a stage counts down, its verdict stays as it is until the soak ends,
      and then it has soaked; the wakeup is what remains exactly when that is in
      range, else none is set. A stage that does not count down never changes with
      time alone. */
  lemma StageWakesUp(req: Request, later: Request, stage: Stage)
    requires SameButTime(req, later) && AllWellFormed(req)
    ensures var v, l := VerdictOf(req, stage), VerdictOf(later, stage);
            if !CountsDown(req, stage) then v.remaining == 0 && l.remaining == 0 && SameVerdict(v, l)
            else
              var ends := SoakEndsAt(req, stage);
              && v.outcome == Soaking && !HasSoaked(v) && ends > req.now
              && (if InRange(Awaited(req, stage), stage, req.now) then v.remaining == ends - req.now else v.remaining < 0)
              && (if later.now < ends then SameVerdict(v, l) && CountsDown(later, stage) && SoakEndsAt(later, stage) == ends
                  else l.remaining == 0 && HasSoaked(l))
    ensures LacksDeployment(req, stage) <==> Severity(VerdictOf(req, stage).outcome) > Severity(Soaking)
    ensures VerdictOf(later, stage).outcome == Soaking ==> VerdictOf(req, stage).outcome == Soaking
  {
    if IsUpstream(req, stage) {
      var h := req.upstreams[stage.order].history;
      HistoryWakesUp(h, req.revision, stage, req.now, later.now);
      if CountsDown(req, stage) {
        RemainingIsExactIff(Awaited(req, stage), stage, req.now);
      }
    }
  }

  lemma HistoryWakesUp(h: History, revision: string, stage: Stage, now: Time, later: Time)
    requires WellFormed(h) && now <= later
    ensures var q, w := FirstQualifying(h, revision, stage, now), FirstWaiting(h, revision, stage, now);
            var q', w' := FirstQualifying(h, revision, stage, later), FirstWaiting(h, revision, stage, later);
            && (q < |h| ==> q' < |h|)
            && w' == w
            && (w < |h| && q == |h| ==>
                  if Soaked(h[w], stage, now) then q' == |h| && Soaked(h[w], stage, later)
                  else if later < h[w].healthy + stage.Soak() then q' == |h| && !Soaked(h[w], stage, later)
                  else Soaked(h[w], stage, later))
            && (w == |h| ==> q' == |h|)
  {
    var q, w := FirstQualifying(h, revision, stage, now), FirstWaiting(h, revision, stage, now);
    forall i | 0 <= i < |h| ensures Waits(h[i], revision, stage, later) == Waits(h[i], revision, stage, now) {
    }
    OnlyDeployedChanges(h, revision, stage, now, later);
    if q < |h| {
      assert Qualifies(h[q], revision, stage, later);
    } else if w < |h| {
      assert forall i :: 0 <= i < w ==> !Waits(h[i], revision, stage, now);
      WaitingDecides(h, revision, stage, now, later, w);
    }
  }

  /** Time alone soaks no entry but the deployed one. */
  lemma OnlyDeployedChanges(h: History, revision: string, stage: Stage, now: Time, later: Time)
    requires WellFormed(h)
    ensures forall i :: 0 <= i < |h| && i != NewestPromoted(h) && Ran(h[i], revision) ==>
              Soaked(h[i], stage, later) == Soaked(h[i], stage, now)
  {
    HeadOrNext(h);
  }

  lemma WaitingDecides(h: History, revision: string, stage: Stage, now: Time, later: Time, w: nat)
    requires WellFormed(h) && now <= later && w < |h| && Waits(h[w], revision, stage, now)
    requires FirstQualifying(h, revision, stage, now) == |h|
    requires forall i :: 0 <= i < w ==> !Waits(h[i], revision, stage, now)
    ensures if Soaked(h[w], stage, now) then Soaked(h[w], stage, later)
            else later < h[w].healthy + stage.Soak() <==> !Soaked(h[w], stage, later)
    ensures Soaked(h[w], stage, now) || !Soaked(h[w], stage, later) ==> FirstQualifying(h, revision, stage, later) == |h|
  {
    HeadOrNext(h);
    OnlyDeployedChanges(h, revision, stage, now, later);
    var d := NewestPromoted(h);
    forall i | 0 <= i < |h| && (Soaked(h[w], stage, now) || !Soaked(h[w], stage, later))
      ensures !Qualifies(h[i], revision, stage, later)
    {
      assert !Qualifies(h[i], revision, stage, now);
      if i == d && Ran(h[i], revision) && h[i].Running() {
        assert w == d;
      }
    }
  }

  /** As time passes and nothing else changes, the outcome and its message stay as
      they are until RequeueAfter has passed, and forever when it is 0. */
  ghost predicate WakesInTime(req: Request) {
    forall later :: SameButTime(req, later) && (ResultOf(req).requeueAfter == 0 || later.now < req.now + ResultOf(req).requeueAfter) ==>
      SameResult(ResultOf(req), ResultOf(later))
  }

  predicate SameResult(r: Result, s: Result) {
    r.outcome == s.outcome && r.message == s.message
  }

  /** Every stage that counts down does so in range; or one does, and its wakeup
      comes first; or a stage lacks a deployment, and holds whatever soaks. */
  predicate SoaksInRange(req: Request) {
    || (forall s :: s in req.stages && CountsDown(req, s) ==> CountsDownInRange(req, s))
    || (exists s :: s in req.stages && CountsDownInRange(req, s))
    || (exists s :: s in req.stages && LacksDeployment(req, s))
  }

  /** No wakeup is missed exactly when the gate does not look at the stages, or
      not all of their soaks under way end out of range. */
  lemma NoMissedWakeup(req: Request)
    requires AllWellFormed(req)
    ensures WakesInTime(req) <==> req.stages == [] || PromotedHereBefore(req) || SoaksInRange(req)
  {
    if req.stages == [] || PromotedHereBefore(req) {
    } else if SoaksInRange(req) {
      forall later | SameButTime(req, later) && (ResultOf(req).requeueAfter == 0 || later.now < req.now + ResultOf(req).requeueAfter)
        ensures SameResult(ResultOf(req), ResultOf(later))
      {
        InRangeWakes(req, later);
      }
    } else {
      var later := OutOfRangeMisses(req);
      assert SameButTime(req, later) && ResultOf(req).requeueAfter == 0;
    }
  }

  lemma InRangeWakes(req: Request, later: Request)
    requires AllWellFormed(req) && req.stages != [] && !PromotedHereBefore(req) && SoaksInRange(req)
    requires SameButTime(req, later)
    requires ResultOf(req).requeueAfter == 0 || later.now < req.now + ResultOf(req).requeueAfter
    ensures SameResult(ResultOf(req), ResultOf(later))
  {
    var n := |req.stages|;
    var vs, ls := VerdictsOf(req, n), VerdictsOf(later, n);
    forall i | 0 <= i < n
      ensures SameVerdict(vs[i], ls[i]) || (CannotDecide(vs[i], ls[i]) && Severity(Worst(vs)) > Severity(Soaking))
    {
      var s := req.stages[i];
      StageWakesUp(req, later, s);
      assert vs[i] in vs;
      if CountsDown(req, s) && !SameVerdict(vs[i], ls[i]) {
        LackingDecides(req, later, s);
      }
    }
    if Severity(Worst(vs)) > Severity(Soaking) {
      UndecidedWorst(vs, ls);
      UndecidedMessages(vs, ls, Worst(vs));
    } else {
      SameFolds(vs, ls);
    }
  }

  /** The soak of s ends before the wakeup only when another stage lacks a
      deployment. */
  lemma LackingDecides(req: Request, later: Request, s: Stage)
    requires AllWellFormed(req) && s in req.stages && CountsDown(req, s) && SoaksInRange(req)
    requires SameButTime(req, later) && SoakEndsAt(req, s) <= later.now
    requires Shortest(VerdictsOf(req, |req.stages|)) == 0 || later.now < req.now + Shortest(VerdictsOf(req, |req.stages|))
    ensures Severity(Worst(VerdictsOf(req, |req.stages|))) > Severity(Soaking)
  {
    var vs := VerdictsOf(req, |req.stages|);
    if t :| t in req.stages && LacksDeployment(req, t) {
      StageWakesUp(req, req, t);
      VerdictIn(req, t);
    } else {
      StageWakesUp(req, req, s);
      VerdictIn(req, s);
      var t :| t in req.stages && CountsDownInRange(req, t);
      StageWakesUp(req, req, t);
      VerdictIn(req, t);
      assert false;
    }
  }

  lemma VerdictIn(req: Request, s: Stage)
    requires s in req.stages
    ensures VerdictOf(req, s) in VerdictsOf(req, |req.stages|)
  {
    var i :| 0 <= i < |req.stages| && req.stages[i] == s;
    assert VerdictsOf(req, |req.stages|)[i] == VerdictOf(req, s);
  }

  /** Neither verdict is among the most severe once another stage lacks a
      deployment. */
  predicate CannotDecide(v: Verdict, l: Verdict) {
    Severity(v.outcome) <= Severity(Soaking) && Severity(l.outcome) <= Severity(Soaking)
  }

  lemma {:induction false} SameFolds(vs: seq<Verdict>, ls: seq<Verdict>)
    requires |vs| == |ls| && forall i :: 0 <= i < |vs| ==> SameVerdict(vs[i], ls[i])
    ensures Worst(ls) == Worst(vs)
    ensures forall o :: MessagesOf(ls, o) == MessagesOf(vs, o)
  {
    if vs != [] {
      SameFolds(vs[..|vs| - 1], ls[..|vs| - 1]);
    }
  }

  predicate AllUndecided(vs: seq<Verdict>, ls: seq<Verdict>) {
    |vs| == |ls| && forall i :: 0 <= i < |vs| ==> SameVerdict(vs[i], ls[i]) || CannotDecide(vs[i], ls[i])
  }

  lemma {:induction false} UndecidedWorst(vs: seq<Verdict>, ls: seq<Verdict>)
    requires AllUndecided(vs, ls)
    ensures Worst(ls) == Worst(vs) || (Severity(Worst(vs)) <= Severity(Soaking) && Severity(Worst(ls)) <= Severity(Soaking))
  {
    if vs != [] {
      UndecidedWorst(vs[..|vs| - 1], ls[..|vs| - 1]);
    }
  }

  lemma {:induction false} UndecidedMessages(vs: seq<Verdict>, ls: seq<Verdict>, o: Outcome)
    requires AllUndecided(vs, ls) && Severity(o) > Severity(Soaking)
    ensures MessagesOf(ls, o) == MessagesOf(vs, o)
  {
    if vs != [] {
      var n := |vs| - 1;
      UndecidedMessages(vs[..n], ls[..n], o);
      assert (vs[n].outcome == o) == (ls[n].outcome == o);
    }
  }

  /** A verdict that at most soaks, and only ever stops soaking. */
  predicate Shrinks(v: Verdict, l: Verdict) {
    && Severity(v.outcome) <= Severity(Soaking) && (l.outcome == Soaking ==> v.outcome == Soaking)
    && (v.outcome == Soaking ==> v.message.Some?) && (l.outcome == Soaking ==> l.message.Some?)
  }

  /** Of verdicts that only ever stop soaking, the messages stay the same only
      when every one stays as it is. */
  lemma {:induction false} SoakingShrinks(vs: seq<Verdict>, ls: seq<Verdict>)
    requires |vs| == |ls| && forall i :: 0 <= i < |vs| ==> Shrinks(vs[i], ls[i])
    ensures |MessagesOf(ls, Soaking)| <= |MessagesOf(vs, Soaking)|
    ensures MessagesOf(ls, Soaking) == MessagesOf(vs, Soaking) ==>
              forall i :: 0 <= i < |vs| && vs[i].outcome == Soaking ==> SameVerdict(vs[i], ls[i])
  {
    if vs != [] {
      var n := |vs| - 1;
      SoakingShrinks(vs[..n], ls[..n]);
      var m, k := MessagesOf(vs[..n], Soaking), MessagesOf(ls[..n], Soaking);
      assert Shrinks(vs[n], ls[n]);
      if MessagesOf(ls, Soaking) == MessagesOf(vs, Soaking) {
        if vs[n].outcome == Soaking {
          assert ls[n].outcome == Soaking;
          assert (k + [ls[n].message.value])[|k|] == (m + [vs[n].message.value])[|k|];
        }
        SamePrefix(k, m, MessagesOf(ls, Soaking));
        forall i | 0 <= i < |vs| && vs[i].outcome == Soaking ensures SameVerdict(vs[i], ls[i]) {
          if i < n {
            assert vs[..n][i] == vs[i] && ls[..n][i] == ls[i];
          }
        }
      }
    }
  }

  lemma SamePrefix<T>(a: seq<T>, b: seq<T>, s: seq<T>)
    requires a <= s && b <= s && |a| == |b|
    ensures a == b
  {
  }

  lemma MissedAt(req: Request, later: Request, i: nat)
    requires AllWellFormed(req) && !SoaksInRange(req) && i < |req.stages|
    requires SameButTime(req, later)
    ensures VerdictOf(req, req.stages[i]).remaining <= 0
    ensures Shrinks(VerdictOf(req, req.stages[i]), VerdictOf(later, req.stages[i]))
  {
    StageWakesUp(req, later, req.stages[i]);
    assert !LacksDeployment(req, req.stages[i]) && !CountsDownInRange(req, req.stages[i]);
  }

  lemma EndedSoakIsSeen(vs: seq<Verdict>, ls: seq<Verdict>, i: nat)
    requires |vs| == |ls| && forall j :: 0 <= j < |vs| ==> Shrinks(vs[j], ls[j]) && vs[j].remaining <= 0
    requires i < |vs| && vs[i].outcome == Soaking && !SameVerdict(vs[i], ls[i])
    ensures Worst(vs) == Soaking && Shortest(vs) == 0
    ensures Worst(ls) != Soaking || MessagesOf(ls, Soaking) != MessagesOf(vs, Soaking)
  {
    SoakingShrinks(vs, ls);
    assert vs[i] in vs;
    assert forall v :: v in vs ==> v.remaining <= 0 && Severity(v.outcome) <= Severity(Soaking);
  }

  lemma OneOutOfRange(req: Request) returns (i: nat)
    requires !SoaksInRange(req)
    ensures i < |req.stages| && CountsDown(req, req.stages[i]) && !CountsDownInRange(req, req.stages[i])
  {
    var s :| s in req.stages && CountsDown(req, s) && !CountsDownInRange(req, s);
    i :| 0 <= i < |req.stages| && req.stages[i] == s;
  }

  /** When the soaks under way all end out of range, and one has ended, the gate
      says something else, and set no wakeup for it. */
  lemma OutOfRangeMisses(req: Request) returns (later: Request)
    requires AllWellFormed(req) && req.stages != [] && !PromotedHereBefore(req) && !SoaksInRange(req)
    ensures SameButTime(req, later) && ResultOf(req).outcome == Soaking && ResultOf(req).requeueAfter == 0
    ensures !SameResult(ResultOf(req), ResultOf(later))
  {
    var n := |req.stages|;
    var i := OneOutOfRange(req);
    later := req.(now := SoakEndsAt(req, req.stages[i]));
    StageWakesUp(req, later, req.stages[i]);
    var vs, ls := VerdictsOf(req, n), VerdictsOf(later, n);
    forall j | 0 <= j < n ensures Shrinks(vs[j], ls[j]) && vs[j].remaining <= 0 {
      MissedAt(req, later, j);
    }
    EndedSoakIsSeen(vs, ls, i);
  }

  /** When RequeueAfter has passed, the stage that set it has just stopped
      counting down: it qualifies, or records its deployment. Just before, it
      still counted down. */
  lemma WakesExactlyAtTheEnd(req: Request, before: Request, then_: Request) returns (i: nat)
    requires ResultOf(req).requeueAfter > 0 && AllWellFormed(req)
    requires SameButTime(req, before) && before.now < req.now + ResultOf(req).requeueAfter
    requires SameButTime(req, then_) && then_.now == req.now + ResultOf(req).requeueAfter
    ensures i < |req.stages|
    ensures VerdictOf(req, req.stages[i]).remaining == ResultOf(req).requeueAfter
    ensures CountsDown(before, req.stages[i]) && SoakEndsAt(before, req.stages[i]) == then_.now
    ensures VerdictOf(then_, req.stages[i]).remaining == 0 && HasSoaked(VerdictOf(then_, req.stages[i]))
  {
    var vs := VerdictsOf(req, |req.stages|);
    var v :| v in vs && v.remaining == Shortest(vs);
    i :| 0 <= i < |vs| && vs[i] == v;
    assert v == VerdictOf(req, req.stages[i]);
    StageWakesUp(req, before, req.stages[i]);
    StageWakesUp(req, then_, req.stages[i]);
  }
}
