/** The gate that holds a stage until its upstream stages ran the same Product
    revision healthily for their soak time: internal/promotion/gate.go. */
module Gate {
  import opened Options
  import opened Times
  import opened Histories
  import opened Soak

  /** Seconds in 32 bits, at least 0 as the API validates them. */
  type SoakSeconds = s: int | 0 <= s < 0x8000_0000

  datatype Stage = Stage(order: string, soakSeconds: SoakSeconds)
  {
    function Soak(): Duration { soakSeconds * SECOND }
  }

  datatype Upstream = Upstream(product: string, history: History)

  datatype Request = Request(
    preparation: string,
    product: string,
    revision: string,
    stages: seq<Stage>,
    self: History,
    upstreams: map<string, Upstream>,
    now: Time)

  datatype Outcome = Satisfied | Soaking | NotDeployedUpstream | InvalidPipeline

  function Severity(o: Outcome): nat {
    match o
    case Satisfied => 0
    case Soaking => 1
    case NotDeployedUpstream => 2
    case InvalidPipeline => 3
  }

  /** What a stage that holds says. */
  datatype StageMessage =
    | Missing(order: string)
    | OtherProduct(order: string, product: string, mine: string)
    | Recording(order: string, preparation: string)
    | SoakEnds(order: string, preparation: string, soak: Duration, ends: Time)
    | NotDeployed(order: string, revision: string, runs: Option<(string, string)>)

  datatype Message =
    | NoStages
    | PromotedHere(started: Time)
    | DeployedBy(orders: seq<string>)
    | Held(messages: seq<StageMessage>)

  datatype Verdict = Verdict(outcome: Outcome, message: Option<StageMessage>, remaining: Duration, qualified: Option<Entry>)

  datatype Qualified = Qualified(stage: Stage, entry: Entry)

  datatype Result = Result(
    outcome: Outcome,
    message: Message,
    requeueAfter: Duration,
    qualified: seq<Qualified>,
    promotion: string)

  // ---------------------------------------------------------- specification

  /** How long e was healthy: until it ended, or until now. */
  function HealthyFor(e: Entry, now: Time): Duration {
    Sub(if e.Running() then now else e.ended, e.healthy)
  }

  predicate Soaked(e: Entry, stage: Stage, now: Time) {
    HealthyFor(e, now) >= stage.Soak()
  }

  predicate Ran(e: Entry, revision: string) {
    e.revision == revision && Undegraded(e)
  }

  predicate Qualifies(e: Entry, revision: string, stage: Stage, now: Time) {
    Ran(e, revision) && Soaked(e, stage, now) && e.deploymentRecord != ""
  }

  predicate Waits(e: Entry, revision: string, stage: Stage, now: Time) {
    Ran(e, revision) && (Soaked(e, stage, now) || e.Running())
  }

  function FirstQualifying(h: History, revision: string, stage: Stage, now: Time): (i: nat)
    ensures i <= |h|
    ensures i < |h| ==> Qualifies(h[i], revision, stage, now)
    ensures forall j :: 0 <= j < i ==> !Qualifies(h[j], revision, stage, now)
  {
    if h == [] || Qualifies(h[0], revision, stage, now) then 0
    else 1 + FirstQualifying(h[1..], revision, stage, now)
  }

  function FirstWaiting(h: History, revision: string, stage: Stage, now: Time): (i: nat)
    ensures i <= |h|
    ensures i < |h| ==> Waits(h[i], revision, stage, now)
    ensures forall j :: 0 <= j < i ==> !Waits(h[j], revision, stage, now)
  {
    if h == [] || Waits(h[0], revision, stage, now) then 0
    else 1 + FirstWaiting(h[1..], revision, stage, now)
  }

  function WaitingVerdict(e: Entry, stage: Stage, now: Time): Verdict {
    if Soaked(e, stage, now) then
      Verdict(Soaking, Some(Recording(stage.order, e.preparation)), 0, None)
    else
      Verdict(Soaking, Some(SoakEnds(stage.order, e.preparation, stage.Soak(), e.healthy + stage.Soak())),
              Minus(stage.Soak(), HealthyFor(e, now)), None)
  }

  function RunsOther(h: History, revision: string): Option<(string, string)> {
    match Deployed(h)
    case Some(e) => if e.revision != revision then Some((e.preparation, e.revision)) else None
    case None => None
  }

  /** The verdict on one stage. */
  function VerdictOf(req: Request, stage: Stage): (v: Verdict)
    ensures v.outcome == Satisfied <==> v.qualified.Some?
    ensures v.outcome == Satisfied <==> v.message.None?
  {
    if stage.order !in req.upstreams then
      Verdict(NotDeployedUpstream, Some(Missing(stage.order)), 0, None)
    else
      var upstream := req.upstreams[stage.order];
      var h := upstream.history;
      var q, w := FirstQualifying(h, req.revision, stage, req.now), FirstWaiting(h, req.revision, stage, req.now);
      if upstream.product != req.product then
        Verdict(InvalidPipeline, Some(OtherProduct(stage.order, upstream.product, req.product)), 0, None)
      else if q < |h| then Verdict(Satisfied, None, 0, Some(h[q]))
      else if w < |h| then WaitingVerdict(h[w], stage, req.now)
      else Verdict(NotDeployedUpstream, Some(NotDeployed(stage.order, req.revision, RunsOther(h, req.revision))), 0, None)
  }

  function VerdictsOf(req: Request, n: nat): seq<Verdict>
    requires n <= |req.stages|
  {
    seq(n, i requires 0 <= i < n => VerdictOf(req, req.stages[i]))
  }

  function Worst(vs: seq<Verdict>): (o: Outcome)
    ensures forall v :: v in vs ==> Severity(v.outcome) <= Severity(o)
    ensures o == Satisfied || exists v :: v in vs && v.outcome == o
  {
    if vs == [] then Satisfied
    else
      var last, o := vs[|vs| - 1], Worst(vs[..|vs| - 1]);
      if Severity(last.outcome) > Severity(o) then last.outcome else o
  }

  /** The messages of the verdicts with outcome o, in order. */
  function MessagesOf(vs: seq<Verdict>, o: Outcome): seq<StageMessage> {
    if vs == [] then []
    else
      var last := vs[|vs| - 1];
      MessagesOf(vs[..|vs| - 1], o) + if last.outcome == o && last.message.Some? then [last.message.value] else []
  }

  /** The shortest positive remaining time, 0 when there is none. */
  function Shortest(vs: seq<Verdict>): (d: Duration)
    ensures d >= 0
    ensures forall v :: v in vs && v.remaining > 0 ==> 0 < d <= v.remaining
    ensures d > 0 ==> exists v :: v in vs && v.remaining == d
  {
    if vs == [] then 0
    else
      var r, d := vs[|vs| - 1].remaining, Shortest(vs[..|vs| - 1]);
      if r > 0 && (d == 0 || r < d) then r else d
  }

  function QualifiedOf(stages: seq<Stage>, vs: seq<Verdict>): seq<Qualified>
    requires |vs| <= |stages|
  {
    if vs == [] then []
    else
      var n := |vs| - 1;
      QualifiedOf(stages, vs[..n]) +
      if vs[n].outcome == Satisfied && vs[n].qualified.Some? then [Qualified(stages[n], vs[n].qualified.value)] else []
  }

  function OrdersOf(stages: seq<Stage>): seq<string> {
    seq(|stages|, i requires 0 <= i < |stages| => stages[i].order)
  }

  /** The decision of the gate. */
  function ResultOf(req: Request): Result {
    var earlier := PromotedBefore(req.self, req.preparation);
    var vs := VerdictsOf(req, |req.stages|);
    var worst := Worst(vs);
    if req.stages == [] then Result(Satisfied, NoStages, 0, [], "")
    else if earlier.Some? then Result(Satisfied, PromotedHere(earlier.value.started), 0, [], earlier.value.promotionRecord)
    else if worst == Satisfied then Result(Satisfied, DeployedBy(OrdersOf(req.stages)), Shortest(vs), QualifiedOf(req.stages, vs), "")
    else Result(worst, Held(MessagesOf(vs, worst)), Shortest(vs), [], "")
  }

  // --------------------------------------------------------- implementation

  method EvaluateStage(req: Request, stage: Stage) returns (v: Verdict)
    ensures v == VerdictOf(req, stage)
  {
    if stage.order !in req.upstreams {
      return Verdict(NotDeployedUpstream, Some(Missing(stage.order)), 0, None);
    }
    var upstream := req.upstreams[stage.order];
    if upstream.product != req.product {
      return Verdict(InvalidPipeline, Some(OtherProduct(stage.order, upstream.product, req.product)), 0, None);
    }

    var h := upstream.history;
    var soaking: Option<Verdict> := None;
    ghost var w: nat := |h|;
    for i := 0 to |h|
      invariant forall j :: 0 <= j < i ==> !Qualifies(h[j], req.revision, stage, req.now)
      invariant soaking.None? ==> w == |h| && forall j :: 0 <= j < i ==> !Waits(h[j], req.revision, stage, req.now)
      invariant soaking.Some? ==> w < i && w < |h| && Waits(h[w], req.revision, stage, req.now)
      invariant soaking.Some? ==> soaking.value == WaitingVerdict(h[w], stage, req.now)
      invariant forall j :: 0 <= j < w && j < i ==> !Waits(h[j], req.revision, stage, req.now)
    {
      var e := h[i];
      if e.revision != req.revision || !e.Promoted() || !IsSet(e.healthy) || e.endReason == Degraded {
        continue;
      }
      var until := req.now;
      if !e.Running() {
        until := e.ended;
      }
      var healthyFor := Sub(until, e.healthy);
      if healthyFor >= stage.Soak() && e.deploymentRecord != "" {
        assert FirstQualifying(h, req.revision, stage, req.now) == i;
        return Verdict(Satisfied, None, 0, Some(e));
      } else if healthyFor >= stage.Soak() && soaking.None? {
        soaking := Some(Verdict(Soaking, Some(Recording(stage.order, e.preparation)), 0, None));
        w := i;
      } else if e.Running() && soaking.None? {
        soaking := Some(Verdict(Soaking, Some(SoakEnds(stage.order, e.preparation, stage.Soak(), e.healthy + stage.Soak())),
                                Minus(stage.Soak(), healthyFor), None));
        w := i;
      }
    }
    assert FirstWaiting(h, req.revision, stage, req.now) == w;
    if soaking.Some? {
      return soaking.value;
    }

    var runs: Option<(string, string)> := None;
    var deployed := Deployed(h);
    if deployed.Some? && deployed.value.revision != req.revision {
      runs := Some((deployed.value.preparation, deployed.value.revision));
    }
    return Verdict(NotDeployedUpstream, Some(NotDeployed(stage.order, req.revision, runs)), 0, None);
  }

  method Evaluate(req: Request) returns (result: Result)
    ensures result == ResultOf(req)
  {
    if |req.stages| == 0 {
      return Result(Satisfied, NoStages, 0, [], "");
    }
    var earlier := PromotedBefore(req.self, req.preparation);
    if earlier.Some? {
      return Result(Satisfied, PromotedHere(earlier.value.started), 0, [], earlier.value.promotionRecord);
    }

    var outcome, messages, requeueAfter, qualified := EvaluateStages(req);
    if outcome != Satisfied {
      return Result(outcome, Held(messages), requeueAfter, [], "");
    }
    var names := Names(req.stages);
    return Result(Satisfied, DeployedBy(names), requeueAfter, qualified, "");
  }

  /** Folds the verdicts on the stages: the most severe outcome with the
      messages of its stages, the first soak to end, and what qualifies. */
  method EvaluateStages(req: Request)
    returns (outcome: Outcome, messages: seq<StageMessage>, requeueAfter: Duration, qualified: seq<Qualified>)
    ensures var vs := VerdictsOf(req, |req.stages|);
            && outcome == Worst(vs)
            && messages == (if outcome == Satisfied then [] else MessagesOf(vs, outcome))
            && requeueAfter == Shortest(vs)
            && qualified == QualifiedOf(req.stages, vs)
  {
    outcome, requeueAfter, qualified, messages := Satisfied, 0, [], [];
    ghost var vs: seq<Verdict> := [];
    for i := 0 to |req.stages|
      invariant vs == VerdictsOf(req, i)
      invariant outcome == Worst(vs)
      invariant messages == if outcome == Satisfied then [] else MessagesOf(vs, outcome)
      invariant requeueAfter == Shortest(vs)
      invariant qualified == QualifiedOf(req.stages, vs)
    {
      var v := EvaluateStage(req, req.stages[i]);
      FoldStep(req.stages, vs, v);
      VerdictsStep(req, i);
      assert vs + [v] == VerdictsOf(req, i + 1);
      vs := VerdictsOf(req, i + 1);
      if Severity(v.outcome) > Severity(outcome) {
        outcome := v.outcome;
        messages := [v.message.value];
      } else if v.outcome == outcome && v.outcome != Satisfied {
        messages := messages + [v.message.value];
      }
      if v.outcome == Satisfied {
        qualified := qualified + [Qualified(req.stages[i], v.qualified.value)];
      }
      if v.remaining > 0 && (requeueAfter == 0 || v.remaining < requeueAfter) {
        requeueAfter := v.remaining;
      }
    }
  }

  lemma VerdictsStep(req: Request, i: nat)
    requires i < |req.stages|
    ensures VerdictsOf(req, i + 1) == VerdictsOf(req, i) + [VerdictOf(req, req.stages[i])]
  {
  }

  method Names(stages: seq<Stage>) returns (names: seq<string>)
    ensures names == OrdersOf(stages)
  {
    names := [];
    for i := 0 to |stages|
      invariant names == OrdersOf(stages)[..i]
    {
      names := names + [stages[i].order];
    }
  }

  /** What one more verdict does to the folds over the verdicts. */
  lemma FoldStep(stages: seq<Stage>, vs: seq<Verdict>, v: Verdict)
    requires |vs| < |stages|
    ensures Worst(vs + [v]) == if Severity(v.outcome) > Severity(Worst(vs)) then v.outcome else Worst(vs)
    ensures Shortest(vs + [v]) ==
            if v.remaining > 0 && (Shortest(vs) == 0 || v.remaining < Shortest(vs)) then v.remaining else Shortest(vs)
    ensures QualifiedOf(stages, vs + [v]) == QualifiedOf(stages, vs) +
            if v.outcome == Satisfied && v.qualified.Some? then [Qualified(stages[|vs|], v.qualified.value)] else []
    ensures var o := Worst(vs + [v]);
            MessagesOf(vs + [v], o) == (if o == Worst(vs) then MessagesOf(vs, o) else []) +
                                       if v.outcome == o && v.message.Some? then [v.message.value] else []
  {
    var o := Worst(vs + [v]);
    assert (vs + [v])[..|vs|] == vs;
    if o != Worst(vs) {
      NoMessages(vs, o);
    }
  }

  lemma NoMessages(vs: seq<Verdict>, o: Outcome)
    requires forall v :: v in vs ==> v.outcome != o
    ensures MessagesOf(vs, o) == []
  {
    if vs != [] {
      assert vs[|vs| - 1] in vs;
      NoMessages(vs[..|vs| - 1], o);
    }
  }
}
