/** The clusters a Serving deploys to, and what is reported on them together:
    internal/controller/serving_controller.go. */
module Targets {
  import opened Histories
  import opened Sequences
  import opened Sorting
  import O = Ownership

  const MAX_LISTED := 64

  /** A Cluster that the Environment selects. */
  datatype Cluster = Cluster(name: string, inCluster: bool, server: string, ready: bool)

  datatype Hold =
    | NotHeld
    | ClusterNotReady
    | ClusterConflict(first: string)
    | RegistryUnreachable
    | HeldByEngine(reason: string)

  datatype Target = Target(cluster: string, server: string, hold: Hold)

  // ------------------------------------------------------- one target a server

  function ServerOf(c: Cluster): string {
    if c.inCluster then O.IN_CLUSTER_SERVER else c.server
  }

  function ServerKey(server: string): string { O.TrimSlash(server) }

  /** The position of the first of the first n clusters that is ready and has the
      server key, n when there is none. */
  function FirstAt(clusters: seq<Cluster>, n: nat, key: string): (i: nat)
    requires n <= |clusters|
    ensures i <= n
    ensures i < n ==> clusters[i].ready && ServerKey(ServerOf(clusters[i])) == key
    ensures forall j :: 0 <= j < i ==> !(clusters[j].ready && ServerKey(ServerOf(clusters[j])) == key)
  {
    if n == 0 then 0
    else
      var i := FirstAt(clusters, n - 1, key);
      if i < n - 1 then i
      else if clusters[n - 1].ready && ServerKey(ServerOf(clusters[n - 1])) == key then n - 1
      else n
  }

  /** Why the target of the cluster at position i is held. */
  function HoldOf(clusters: seq<Cluster>, bundled: bool, i: nat): Hold
    requires i < |clusters|
  {
    var c := clusters[i];
    var first := FirstAt(clusters, i, ServerKey(ServerOf(c)));
    if !c.ready then ClusterNotReady
    else if first < i then ClusterConflict(clusters[first].name)
    else if !c.inCluster && bundled then RegistryUnreachable
    else NotHeld
  }

  /** The servers of the targets so far, and which Cluster has each. */
  ghost predicate ServersOf(clusters: seq<Cluster>, n: nat, servers: map<string, string>)
    requires n <= |clusters|
  {
    forall key :: (key in servers <==> FirstAt(clusters, n, key) < n)
                  && (key in servers ==> servers[key] == clusters[FirstAt(clusters, n, key)].name)
  }

  method TargetsOf(clusters: seq<Cluster>, bundled: bool) returns (targets: seq<Target>)
    ensures |targets| == |clusters|
    ensures forall i :: 0 <= i < |targets| ==> targets[i] == Target(clusters[i].name, ServerOf(clusters[i]), HoldOf(clusters, bundled, i))
  {
    targets := [];
    var servers: map<string, string> := map[];
    for i := 0 to |clusters|
      invariant |targets| == i
      invariant forall j :: 0 <= j < i ==> targets[j] == Target(clusters[j].name, ServerOf(clusters[j]), HoldOf(clusters, bundled, j))
      invariant ServersOf(clusters, i, servers)
    {
      var target;
      target, servers := TargetOf(clusters, i, bundled, servers);
      targets := targets + [target];
    }
  }

  /** The target of one Cluster. Of two Clusters for one server, only the first
      deploys. */
  method TargetOf(clusters: seq<Cluster>, i: nat, bundled: bool, servers: map<string, string>) returns (target: Target, more: map<string, string>)
    requires i < |clusters| && ServersOf(clusters, i, servers)
    ensures target == Target(clusters[i].name, ServerOf(clusters[i]), HoldOf(clusters, bundled, i))
    ensures ServersOf(clusters, i + 1, more)
  {
    var c := clusters[i];
    var server := c.server;
    if c.inCluster {
      server := O.IN_CLUSTER_SERVER;
    }
    more := servers;
    var key := ServerKey(server);
    if !c.ready {
      return Target(c.name, server, ClusterNotReady), more;
    }
    var hold := NotHeld;
    if key in servers {
      hold := ClusterConflict(servers[key]);
    } else if !c.inCluster && bundled {
      hold := RegistryUnreachable;
    }
    if key !in servers {
      more := servers[key := c.name];
    }
    ServersStep(clusters, i, servers);
    target := Target(c.name, server, hold);
  }

  lemma {:induction false} ServersStep(clusters: seq<Cluster>, n: nat, servers: map<string, string>)
    requires n < |clusters| && ServersOf(clusters, n, servers) && clusters[n].ready
    ensures var key := ServerKey(ServerOf(clusters[n]));
            ServersOf(clusters, n + 1, if key in servers then servers else servers[key := clusters[n].name])
  {
  }

  /** No two targets that are deployed to have the same server. */
  lemma {:induction false} DeployableAreDistinct(clusters: seq<Cluster>, bundled: bool, i: nat, j: nat)
    requires i < j < |clusters| && HoldOf(clusters, bundled, i) == NotHeld && HoldOf(clusters, bundled, j) == NotHeld
    ensures ServerKey(ServerOf(clusters[i])) != ServerKey(ServerOf(clusters[j]))
  {
    var first := FirstAt(clusters, j, ServerKey(ServerOf(clusters[j])));
    assert first == j;
  }

  /** Of the ready Clusters of a server, the first is not held for the others. */
  lemma {:induction false} FirstDeploys(clusters: seq<Cluster>, bundled: bool, i: nat)
    requires i < |clusters| && clusters[i].ready
    requires forall j :: 0 <= j < i && clusters[j].ready ==> ServerKey(ServerOf(clusters[j])) != ServerKey(ServerOf(clusters[i]))
    ensures !HoldOf(clusters, bundled, i).ClusterConflict?
    ensures HoldOf(clusters, bundled, i) == NotHeld <==> clusters[i].inCluster || !bundled
  {
    var first := FirstAt(clusters, i, ServerKey(ServerOf(clusters[i])));
    assert first == i;
  }

  // ------------------------------------------------------------------ applying

  datatype TargetState = TargetState(health: Health, revision: string)

  datatype EngineReply = Fails | Holds(reason: string) | Reports(state: TargetState)

  /** The target as the engine leaves it. */
  function AppliedTo(t: Target, reply: Target -> EngineReply): Target {
    if t.hold != NotHeld then t
    else match reply(t)
      case Holds(reason) => t.(hold := HeldByEngine(reason))
      case _ => t
  }

  predicate Reported(t: Target, reply: Target -> EngineReply) {
    t.hold == NotHeld && reply(t).Reports?
  }

  predicate AllApply(targets: seq<Target>, reply: Target -> EngineReply) {
    forall i :: 0 <= i < |targets| && targets[i].hold == NotHeld ==> reply(targets[i]) != Fails
  }

  /** Points the deployment of every target that is not held at what is deployed,
      and then removes it from the clusters that are not kept; remove says whether
      that succeeds. It is not tried, and keep is empty, when an engine fails. */
  method ApplyTargets(targets: seq<Target>, reply: Target -> EngineReply, remove: set<string> -> bool)
    returns (ok: bool, applied: seq<Target>, states: map<string, TargetState>, keep: set<string>)
    requires forall i, j :: 0 <= i < j < |targets| ==> targets[i].cluster != targets[j].cluster
    ensures ok <==> AllApply(targets, reply) && remove(set t | t in targets :: t.cluster)
    ensures keep == if AllApply(targets, reply) then set t | t in targets :: t.cluster else {}
    ensures ok ==> |applied| == |targets| && forall i :: 0 <= i < |targets| ==> applied[i] == AppliedTo(targets[i], reply)
    ensures ok ==> forall i :: 0 <= i < |targets| ==> (targets[i].cluster in states <==> Reported(targets[i], reply))
    ensures ok ==> forall i :: 0 <= i < |targets| && Reported(targets[i], reply) ==> states[targets[i].cluster] == reply(targets[i]).state
  {
    applied, states, keep := [], map[], {};
    for i := 0 to |targets|
      invariant keep == set j | 0 <= j < i :: targets[j].cluster
      invariant forall j :: 0 <= j < i && targets[j].hold == NotHeld ==> reply(targets[j]) != Fails
      invariant |applied| == i && forall j :: 0 <= j < i ==> applied[j] == AppliedTo(targets[j], reply)
      invariant forall j :: 0 <= j < |targets| ==> (targets[j].cluster in states <==> j < i && Reported(targets[j], reply))
      invariant forall j :: 0 <= j < i && Reported(targets[j], reply) ==> states[targets[j].cluster] == reply(targets[j]).state
    {
      var target := targets[i];
      keep := keep + {target.cluster};
      if target.hold != NotHeld {
        applied := applied + [target];
        continue;
      }
      var state := reply(target);
      match state
      case Fails => return false, [], map[], {};
      case Holds(reason) => applied := applied + [target.(hold := HeldByEngine(reason))];
      case Reports(s) =>
        applied := applied + [target];
        states := states[target.cluster := s];
    }
    assert keep == set t | t in targets :: t.cluster;
    ok := remove(keep);
  }

  // ---------------------------------------------------------------- accounting

  datatype Kind = HeldBack | Degrades | Runs | Progresses

  /** The state of the deployment of digest on a target. */
  function KindOf(digest: string, states: map<string, TargetState>, t: Target): Kind {
    var atTarget := t.cluster in states && states[t.cluster].revision == digest;
    if t.hold != NotHeld then HeldBack
    else if atTarget && states[t.cluster].health == Degrading then Degrades
    else if atTarget && states[t.cluster].health == Healthy then Runs
    else Progresses
  }

  function KindIs(digest: string, states: map<string, TargetState>, k: Kind): Target -> bool {
    (t: Target) => KindOf(digest, states, t) == k
  }

  datatype Counts = Counts(selected: nat, healthy: nat, progressing: nat, degraded: nat, held: nat)

  function CountsOf(digest: string, states: map<string, TargetState>, targets: seq<Target>): Counts {
    Counts(|targets|, Count(targets, KindIs(digest, states, Runs)), Count(targets, KindIs(digest, states, Progresses)),
           Count(targets, KindIs(digest, states, Degrades)), Count(targets, KindIs(digest, states, HeldBack)))
  }

  /** A target that does not run what is deployed healthily, as it is listed. */
  datatype ListedTarget = ListedTarget(cluster: string, revision: string, kind: Kind, hold: Hold)

  function ListedOf(digest: string, states: map<string, TargetState>, t: Target): ListedTarget {
    ListedTarget(t.cluster, if t.cluster in states then states[t.cluster].revision else "", KindOf(digest, states, t), t.hold)
  }

  /** The targets of a kind, as they are listed. */
  function OfKind(digest: string, states: map<string, TargetState>, targets: seq<Target>, k: Kind): seq<ListedTarget> {
    if targets == [] then []
    else
      var last := targets[|targets| - 1];
      OfKind(digest, states, targets[..|targets| - 1], k) + if KindOf(digest, states, last) == k then [ListedOf(digest, states, last)] else []
  }

  /** Held targets first, then degraded, then progressing ones. */
  function AllListed(digest: string, states: map<string, TargetState>, targets: seq<Target>): seq<ListedTarget> {
    OfKind(digest, states, targets, HeldBack) + OfKind(digest, states, targets, Degrades) + OfKind(digest, states, targets, Progresses)
  }

  function Rank(t: ListedTarget): nat {
    match t.kind
    case HeldBack => 0
    case Degrades => 1
    case _ => 2
  }

  predicate RankLeq(a: ListedTarget, b: ListedTarget) { Rank(a) <= Rank(b) }

  /** One more target of a kind. */
  function Counted(was: Counts, kind: Kind): Counts {
    match kind
    case HeldBack => was.(held := was.held + 1)
    case Degrades => was.(degraded := was.degraded + 1)
    case Runs => was.(healthy := was.healthy + 1)
    case Progresses => was.(progressing := was.progressing + 1)
  }

  lemma {:induction false} CountStep(digest: string, states: map<string, TargetState>, targets: seq<Target>, i: nat)
    requires i < |targets|
    ensures CountsOf(digest, states, targets[..i + 1]).(selected := |targets|) ==
            Counted(CountsOf(digest, states, targets[..i]).(selected := |targets|), KindOf(digest, states, targets[i]))
  {
    assert targets[..i + 1][..i] == targets[..i];
  }

  datatype ReadyStatus = DeploymentFailed | NoClusterReady | Deployed | Deploying

  function Unready(targets: seq<Target>): nat {
    Count(targets, (t: Target) => t.hold == ClusterNotReady)
  }

  /** The status of a Serving that reports on its targets. */
  class Status {
    var clusters: Counts
    var targets: seq<ListedTarget>
    var ready: ReadyStatus

    constructor ()
    {
      clusters, targets, ready := Counts(0, 0, 0, 0, 0), [], Deploying;
    }

    /** Counts the targets by the state of their deployment, and lists those that
        do not run it healthily. */
    method SetTargets(digest: string, selected: seq<Target>, states: map<string, TargetState>)
      modifies this`clusters, this`targets
      ensures clusters == CountsOf(digest, states, selected)
      ensures targets == var l := AllListed(digest, states, selected); if |l| > MAX_LISTED then l[..MAX_LISTED] else l
    {
      var counts := Counts(|selected|, 0, 0, 0, 0);
      var listed: seq<ListedTarget> := [];
      for i := 0 to |selected|
        invariant counts == CountsOf(digest, states, selected[..i]).(selected := |selected|)
        invariant SortBy(listed, RankLeq) == AllListed(digest, states, selected[..i])
      {
        var t := selected[i];
        CountStep(digest, states, selected, i);
        ListNext(digest, states, selected, i, listed);
        var kind;
        kind, counts := CountOne(digest, states, t, counts);
        if kind == Runs {
          continue;
        }
        listed := listed + [ListedTarget(t.cluster, if t.cluster in states then states[t.cluster].revision else "", kind, t.hold)];
      }
      assert selected[..|selected|] == selected;
      clusters := counts;
      var sorted := SortBy(listed, RankLeq);
      targets := if |sorted| > MAX_LISTED then sorted[..MAX_LISTED] else sorted;
    }

    /** Counts one target by the state of its deployment. */
    static method CountOne(digest: string, states: map<string, TargetState>, t: Target, was: Counts) returns (kind: Kind, counts: Counts)
      ensures kind == KindOf(digest, states, t) && counts == Counted(was, kind)
    {
      var atTarget := t.cluster in states && states[t.cluster].revision == digest;
      if t.hold != NotHeld {
        return HeldBack, was.(held := was.held + 1);
      } else if atTarget && states[t.cluster].health == Degrading {
        return Degrades, was.(degraded := was.degraded + 1);
      } else if atTarget && states[t.cluster].health == Healthy {
        return Runs, was.(healthy := was.healthy + 1);
      }
      return Progresses, was.(progressing := was.progressing + 1);
    }

    /** Derives the Ready condition from the targets. */
    method MarkDeployment(selected: seq<Target>, observation: Observation)
      modifies this`ready
      ensures ready == ReadyOf(clusters, selected, observation)
    {
      var unready := 0;
      for i := 0 to |selected|
        invariant unready == Unready(selected[..i])
      {
        assert selected[..i + 1][..i] == selected[..i];
        if selected[i].hold == ClusterNotReady {
          unready := unready + 1;
        }
      }
      assert selected[..|selected|] == selected;
      var failing := clusters.held - unready + clusters.degraded;
      if failing > 0 {
        ready := DeploymentFailed;
      } else if unready == |selected| {
        ready := NoClusterReady;
      } else if observation.health == Healthy {
        ready := Deployed;
      } else {
        ready := Deploying;
      }
    }
  }

  function ReadyOf(clusters: Counts, targets: seq<Target>, observation: Observation): ReadyStatus {
    if clusters.held - Unready(targets) + clusters.degraded > 0 then DeploymentFailed
    else if Unready(targets) == |targets| then NoClusterReady
    else if observation.health == Healthy then Deployed
    else Deploying
  }

  /** Stable insertion after everything that is not greater. */
  lemma {:induction false} InsertBetween(x: ListedTarget, low: seq<ListedTarget>, high: seq<ListedTarget>)
    requires (forall t :: t in low ==> RankLeq(t, x)) && (forall t :: t in high ==> !RankLeq(t, x))
    ensures Insert(x, low + high, RankLeq) == low + [x] + high
  {
    if high != [] {
      var n := |high| - 1;
      InsertBetween(x, low, high[..n]);
      assert (low + high)[..|low| + n] == low + high[..n];
      assert low + [x] + high == low + [x] + high[..n] + [high[n]];
      assert high[n] in high;
    } else {
      assert low + high == low;
      assert low != [] ==> low[|low| - 1] in low;
    }
  }

  lemma {:induction false} KindsAre(digest: string, states: map<string, TargetState>, targets: seq<Target>, k: Kind)
    ensures forall t :: t in OfKind(digest, states, targets, k) ==> t.kind == k
    ensures |OfKind(digest, states, targets, k)| == Count(targets, KindIs(digest, states, k))
  {
    if targets != [] {
      KindsAre(digest, states, targets[..|targets| - 1], k);
    }
  }

  lemma {:induction false} Associate<T>(a: seq<T>, b: seq<T>, c: seq<T>, x: T)
    ensures a + b + c == a + (b + c) && a + [x] + b + c == a + [x] + (b + c)
    ensures a + (b + [x]) + c == a + b + [x] + c
    ensures a + b + c + [] == a + b + c && a + b + (c + [x]) == a + b + c + [x] + []
  {
  }

  lemma {:induction false} KindStep(digest: string, states: map<string, TargetState>, targets: seq<Target>, t: Target, k: Kind)
    ensures OfKind(digest, states, targets + [t], k) ==
            OfKind(digest, states, targets, k) + if KindOf(digest, states, t) == k then [ListedOf(digest, states, t)] else []
  {
    assert (targets + [t])[..|targets|] == targets;
  }

  lemma {:induction false} SortStep(listed: seq<ListedTarget>, x: ListedTarget)
    ensures SortBy(listed + [x], RankLeq) == Insert(x, SortBy(listed, RankLeq), RankLeq)
  {
    assert (listed + [x])[..|listed|] == listed;
  }

  /** One more target goes to the end of its kind. */
  lemma {:induction false} ListStep(digest: string, states: map<string, TargetState>, targets: seq<Target>, t: Target, listed: seq<ListedTarget>)
    requires SortBy(listed, RankLeq) == AllListed(digest, states, targets)
    ensures AllListed(digest, states, targets + [t]) ==
            if KindOf(digest, states, t) == Runs then SortBy(listed, RankLeq)
            else SortBy(listed + [ListedOf(digest, states, t)], RankLeq)
  {
    var x := ListedOf(digest, states, t);
    var held, degraded, progressing :=
      OfKind(digest, states, targets, HeldBack), OfKind(digest, states, targets, Degrades), OfKind(digest, states, targets, Progresses);
    KindsAre(digest, states, targets, HeldBack);
    KindsAre(digest, states, targets, Degrades);
    KindsAre(digest, states, targets, Progresses);
    KindStep(digest, states, targets, t, HeldBack);
    KindStep(digest, states, targets, t, Degrades);
    KindStep(digest, states, targets, t, Progresses);
    assert held + [] == held && degraded + [] == degraded && progressing + [] == progressing;
    if KindOf(digest, states, t) != Runs {
      SortStep(listed, x);
      InsertAt(x, held, degraded, progressing);
    }
  }

  lemma {:induction false} ListNext(digest: string, states: map<string, TargetState>, targets: seq<Target>, i: nat, listed: seq<ListedTarget>)
    requires i < |targets| && SortBy(listed, RankLeq) == AllListed(digest, states, targets[..i])
    ensures AllListed(digest, states, targets[..i + 1]) ==
            if KindOf(digest, states, targets[i]) == Runs then SortBy(listed, RankLeq)
            else SortBy(listed + [ListedOf(digest, states, targets[i])], RankLeq)
  {
    ListStep(digest, states, targets[..i], targets[i], listed);
    OneMore(targets, i);
  }

  lemma {:induction false} InsertAt(x: ListedTarget, held: seq<ListedTarget>, degraded: seq<ListedTarget>, progressing: seq<ListedTarget>)
    requires (forall t :: t in held ==> t.kind == HeldBack) && (forall t :: t in degraded ==> t.kind == Degrades)
    requires (forall t :: t in progressing ==> t.kind == Progresses) && x.kind != Runs
    ensures Insert(x, held + degraded + progressing, RankLeq) ==
            match x.kind
            case HeldBack => held + [x] + degraded + progressing
            case Degrades => held + (degraded + [x]) + progressing
            case _ => held + degraded + (progressing + [x])
  {
    Associate(held, degraded, progressing, x);
    match x.kind
    case HeldBack => InsertBetween(x, held, degraded + progressing);
    case Degrades => InsertBetween(x, held + degraded, progressing);
    case Progresses => InsertBetween(x, held + degraded + progressing, []);
  }

  // --------------------------------------------------------------- observation

  /** What is reported on the targets together. */
  function ObservationOf(digest: string, states: map<string, TargetState>, targets: seq<Target>): Observation {
    if exists t :: t in targets && KindOf(digest, states, t) == Degrades then Observation(digest, Degrading)
    else if (forall t :: t in targets ==> t.hold == ClusterNotReady || KindOf(digest, states, t) == Runs)
         && (exists t :: t in targets && KindOf(digest, states, t) == Runs) then Observation(digest, Healthy)
    else Observation("", Progressing)
  }

  method Observe(digest: string, states: map<string, TargetState>, targets: seq<Target>) returns (o: Observation)
    ensures o == ObservationOf(digest, states, targets)
  {
    var counted, healthy := 0, 0;
    for i := 0 to |targets|
      invariant healthy <= counted
      invariant forall j :: 0 <= j < i ==> KindOf(digest, states, targets[j]) != Degrades
      invariant healthy == counted <==> forall j :: 0 <= j < i ==> targets[j].hold == ClusterNotReady || KindOf(digest, states, targets[j]) == Runs
      invariant healthy > 0 <==> exists j :: 0 <= j < i && KindOf(digest, states, targets[j]) == Runs
    {
      var t := targets[i];
      if t.hold == ClusterNotReady {
        continue;
      }
      counted := counted + 1;
      if t.hold != NotHeld || t.cluster !in states || states[t.cluster].revision != digest {
        continue;
      }
      match states[t.cluster].health
      case Degrading =>
        assert KindOf(digest, states, t) == Degrades;
        return Observation(digest, Degrading);
      case Healthy => healthy := healthy + 1;
      case Progressing =>
    }
    if counted > 0 && healthy == counted {
      return Observation(digest, Healthy);
    }
    return Observation("", Progressing);
  }

  // ------------------------------------------------------------------- agreement

  lemma {:induction false} KindsAddUp(digest: string, states: map<string, TargetState>, targets: seq<Target>)
    ensures var c := CountsOf(digest, states, targets); c.selected == c.healthy + c.progressing + c.degraded + c.held
  {
    if targets != [] {
      KindsAddUp(digest, states, targets[..|targets| - 1]);
    }
  }

  lemma {:induction false} CountedIff<T>(s: seq<T>, p: T -> bool)
    ensures Count(s, p) > 0 <==> exists i :: 0 <= i < |s| && p(s[i])
  {
    if s != [] {
      CountedIff(s[..|s| - 1], p);
      assert forall i :: 0 <= i < |s| - 1 ==> s[..|s| - 1][i] == s[i];
    }
  }

  /** Whatever is counted is counted again by what it implies; equally often only
      when they agree. */
  lemma {:induction false} CountedAlike<T>(s: seq<T>, p: T -> bool, q: T -> bool)
    requires forall x :: x in s && p(x) ==> q(x)
    ensures Count(s, p) <= Count(s, q)
    ensures Count(s, p) == Count(s, q) <==> forall i :: 0 <= i < |s| && q(s[i]) ==> p(s[i])
  {
    if s != [] {
      var n := |s| - 1;
      CountedAlike(s[..n], p, q);
      assert forall i :: 0 <= i < n ==> s[..n][i] == s[i];
      assert s[n] in s;
    }
  }

  lemma {:induction false} CountedAll<T>(s: seq<T>, p: T -> bool)
    ensures Count(s, p) == |s| <==> forall i :: 0 <= i < |s| ==> p(s[i])
  {
    if s != [] {
      CountedAll(s[..|s| - 1], p);
      assert forall i :: 0 <= i < |s| - 1 ==> s[..|s| - 1][i] == s[i];
    }
  }

  lemma {:induction false} DegradesIff(digest: string, states: map<string, TargetState>, targets: seq<Target>)
    ensures (exists t :: t in targets && KindOf(digest, states, t) == Degrades) <==> Count(targets, KindIs(digest, states, Degrades)) > 0
  {
    CountedIff(targets, KindIs(digest, states, Degrades));
    if t :| t in targets && KindOf(digest, states, t) == Degrades {
      var i :| 0 <= i < |targets| && targets[i] == t;
      assert KindIs(digest, states, Degrades)(targets[i]);
    }
    if i :| 0 <= i < |targets| && KindIs(digest, states, Degrades)(targets[i]) {
      assert targets[i] in targets;
    }
  }

  /** Some target is held for another reason than that its Cluster is not ready. */
  predicate HeldOtherwise(targets: seq<Target>) {
    exists t :: t in targets && t.hold != NotHeld && t.hold != ClusterNotReady
  }

  lemma {:induction false} HeldOtherwiseIff(digest: string, states: map<string, TargetState>, targets: seq<Target>)
    ensures Unready(targets) <= Count(targets, KindIs(digest, states, HeldBack))
    ensures HeldOtherwise(targets) <==> Unready(targets) < Count(targets, KindIs(digest, states, HeldBack))
  {
    var unready, held := (t: Target) => t.hold == ClusterNotReady, KindIs(digest, states, HeldBack);
    CountedAlike(targets, unready, held);
    if HeldOtherwise(targets) {
      var t :| t in targets && t.hold != NotHeld && t.hold != ClusterNotReady;
      var i :| 0 <= i < |targets| && targets[i] == t;
      assert held(targets[i]) && !unready(targets[i]);
    } else {
      forall i | 0 <= i < |targets| && held(targets[i]) ensures unready(targets[i]) {
        assert targets[i] in targets;
      }
    }
  }

  lemma {:induction false} AllUnreadyIff(targets: seq<Target>)
    ensures Unready(targets) == |targets| <==> forall t :: t in targets ==> t.hold == ClusterNotReady
  {
    var unready := (t: Target) => t.hold == ClusterNotReady;
    CountedAll(targets, unready);
    if forall t :: t in targets ==> t.hold == ClusterNotReady {
      forall i | 0 <= i < |targets| ensures unready(targets[i]) {
        assert targets[i] in targets;
      }
    }
  }

  lemma {:induction false} CountEither<T>(s: seq<T>, p: T -> bool, q: T -> bool, either: T -> bool)
    requires forall x :: x in s ==> !(p(x) && q(x)) && (either(x) <==> p(x) || q(x))
    ensures Count(s, either) == Count(s, p) + Count(s, q)
  {
    if s != [] {
      assert s[|s| - 1] in s;
      CountEither(s[..|s| - 1], p, q, either);
    }
  }

  /** It is observed healthy exactly when a target is counted healthy and every
      other one is on a Cluster that is not ready. */
  lemma {:induction false} HealthyIff(digest: string, states: map<string, TargetState>, targets: seq<Target>)
    ensures ObservationOf(digest, states, targets).health == Healthy <==>
            var healthy := Count(targets, KindIs(digest, states, Runs));
            healthy > 0 && healthy + Unready(targets) == |targets|
  {
    var runs, unready := KindIs(digest, states, Runs), (t: Target) => t.hold == ClusterNotReady;
    var either := (t: Target) => t.hold == ClusterNotReady || KindOf(digest, states, t) == Runs;
    CountEither(targets, runs, unready, either);
    CountedAll(targets, either);
    CountedIff(targets, runs);
    forall i | 0 <= i < |targets| ensures targets[i] in targets {
    }
    if ObservationOf(digest, states, targets).health == Healthy {
      var t :| t in targets && KindOf(digest, states, t) == Runs;
      var i :| 0 <= i < |targets| && targets[i] == t;
      assert runs(targets[i]) && forall j :: 0 <= j < |targets| ==> either(targets[j]);
    }
    if Count(targets, either) == |targets| && Count(targets, runs) > 0 {
      var i :| 0 <= i < |targets| && runs(targets[i]);
      forall t | t in targets ensures t.hold == ClusterNotReady || KindOf(digest, states, t) == Runs {
        var j :| 0 <= j < |targets| && targets[j] == t;
        assert either(targets[j]);
      }
      assert KindOf(digest, states, targets[i]) == Runs;
    }
  }

  /** Every target is counted once, and those that do not run healthily are
      listed, held ones first, before the list is cut to 64. */
  lemma {:induction false} CountsAgree(digest: string, states: map<string, TargetState>, targets: seq<Target>)
    ensures var c := CountsOf(digest, states, targets);
            && c.selected == c.healthy + c.progressing + c.degraded + c.held
            && |AllListed(digest, states, targets)| == c.selected - c.healthy
  {
    KindsAddUp(digest, states, targets);
    KindsAre(digest, states, targets, HeldBack);
    KindsAre(digest, states, targets, Degrades);
    KindsAre(digest, states, targets, Progresses);
  }

  /** The counts, the observation and the Ready condition agree: it is observed
      degraded exactly when a target is counted degraded; it has failed exactly
      when one is, or is held while its Cluster is ready; it is Deployed exactly
      when it is observed healthy, which is when a target is counted healthy and
      all others are on Clusters that are not ready. */
  lemma {:induction false} AccountingAgrees(digest: string, states: map<string, TargetState>, targets: seq<Target>)
    ensures var c, o := CountsOf(digest, states, targets), ObservationOf(digest, states, targets);
            && (o.health == Degrading <==> c.degraded > 0)
            && (o.health == Healthy <==> c.healthy > 0 && c.healthy + Unready(targets) == c.selected)
            && (ReadyOf(c, targets, o) == Deployed <==> o.health == Healthy)
            && (ReadyOf(c, targets, o) == DeploymentFailed <==> c.degraded > 0 || HeldOtherwise(targets))
  {
    DegradesIff(digest, states, targets);
    HeldOtherwiseIff(digest, states, targets);
    AllUnreadyIff(targets);
    HealthyIff(digest, states, targets);
  }
}
