/** Which objects Kokumi writes in Argo CD's namespace:
    internal/controller/argocd.go, internal/argocd/cluster.go. */
module Ownership {
  import opened Objects
  import opened Options

  const LABEL_SECRET_TYPE := "argocd.argoproj.io/secret-type"
  const SECRET_TYPE_CLUSTER := "cluster"
  const LABEL_MANAGED_BY := "app.kubernetes.io/managed-by"
  const MANAGED_BY := "kokumi"
  const LABEL_CLUSTER := "delivery.kokumi.dev/cluster"
  const LABEL_CLUSTER_NAMESPACE := "delivery.kokumi.dev/cluster-namespace"
  const IN_CLUSTER_SERVER := "https://kubernetes.default.svc"

  datatype ClusterId = ClusterId(namespace: string, name: string)

  /** Where a cluster is, and the encoded credential to reach it. */
  datatype Kubeconfig = Kubeconfig(server: string, config: string)

  datatype Secret = Secret(labels: map<string, string>, type_: string, data: map<string, string>)

  /** The hashes that names are made of: of a server, and of a Cluster. */
  datatype Hashes = Hashes(server: string -> string, cluster: ClusterId -> string)

  // ------------------------------------------------------------------- naming

  /** The value at key, "" when there is none. */
  function At(m: map<string, string>, key: string): string {
    if key in m then m[key] else ""
  }

  function TrimSlash(s: string): string {
    if s != "" && s[|s| - 1] == '/' then s[..|s| - 1] else s
  }

  predicate SameServer(a: string, b: string) {
    a != "" && TrimSlash(a) == TrimSlash(b)
  }

  /** One name per server makes registering a server atomic. */
  function SecretName(h: Hashes, server: string): string {
    "kokumi-" + h.server(TrimSlash(server))
  }

  function RegistrationLabels(c: ClusterId): map<string, string> {
    map[LABEL_MANAGED_BY := MANAGED_BY, LABEL_CLUSTER := c.name, LABEL_CLUSTER_NAMESPACE := c.namespace]
  }

  /** The Cluster Kokumi manages the Secret for. */
  function Managed(s: Secret): Option<ClusterId> {
    var c := ClusterId(At(s.labels, LABEL_CLUSTER_NAMESPACE), At(s.labels, LABEL_CLUSTER));
    if c.namespace != "" && c.name != "" && At(s.labels, LABEL_MANAGED_BY) == MANAGED_BY then Some(c) else None
  }

  function ClusterSecret(h: Hashes, c: ClusterId, k: Kubeconfig): Secret {
    Secret(RegistrationLabels(c)[LABEL_SECRET_TYPE := SECRET_TYPE_CLUSTER], "Opaque",
           map["name" := h.cluster(c), "server" := k.server, "config" := k.config])
  }

  predicate IsNamed(c: ClusterId) { c.namespace != "" && c.name != "" }

  lemma ClusterSecretIsManaged(h: Hashes, c: ClusterId, k: Kubeconfig)
    requires IsNamed(c)
    ensures Managed(ClusterSecret(h, c, k)) == Some(c) && At(ClusterSecret(h, c, k).data, "server") == k.server
  {
    assert LABEL_MANAGED_BY != LABEL_CLUSTER && LABEL_CLUSTER != LABEL_CLUSTER_NAMESPACE && LABEL_MANAGED_BY != LABEL_CLUSTER_NAMESPACE;
    assert LABEL_SECRET_TYPE != LABEL_CLUSTER && LABEL_SECRET_TYPE != LABEL_CLUSTER_NAMESPACE && LABEL_SECRET_TYPE != LABEL_MANAGED_BY;
    assert "name" != "server" && "server" != "config";
  }

  // ----------------------------------------------------------- registrations

  type SecretObject = Object<Secret>

  predicate ConflictsWith(h: Hashes, o: SecretObject, c: ClusterId, server: string) {
    && Managed(o.content).None?
    && At(o.content.labels, LABEL_SECRET_TYPE) == SECRET_TYPE_CLUSTER
    && (At(o.content.data, "name") == h.cluster(c) || SameServer(At(o.content.data, "server"), server))
  }

  method Conflicts(h: Hashes, secrets: seq<SecretObject>, c: ClusterId, server: string) returns (conflicts: seq<string>)
    ensures conflicts == [] <==> forall o :: o in secrets ==> !ConflictsWith(h, o, c, server)
    ensures forall n :: n in conflicts ==> exists o :: o in secrets && o.name == n && ConflictsWith(h, o, c, server)
    ensures forall o :: o in secrets && ConflictsWith(h, o, c, server) ==> o.name in conflicts
  {
    conflicts := [];
    for i := 0 to |secrets|
      invariant forall j :: 0 <= j < i && ConflictsWith(h, secrets[j], c, server) ==> secrets[j].name in conflicts
      invariant conflicts == [] <==> forall j :: 0 <= j < i ==> !ConflictsWith(h, secrets[j], c, server)
      invariant forall n :: n in conflicts ==> exists o :: o in secrets && o.name == n && ConflictsWith(h, o, c, server)
    {
      var o := secrets[i];
      if Managed(o.content).Some? || At(o.content.labels, LABEL_SECRET_TYPE) != SECRET_TYPE_CLUSTER {
        continue;
      }
      if At(o.content.data, "name") == h.cluster(c) || SameServer(At(o.content.data, "server"), server) {
        assert o in secrets && ConflictsWith(h, o, c, server);
        conflicts := conflicts + [o.name];
      }
    }
  }

  datatype Registration = Registered | ClusterConflict | NotRegistered

  /** The deletes of the Secrets own that register a Cluster, but the one named
      keep. */
  function DeletesOf(own: seq<SecretObject>, keep: string): seq<Call<Secret>> {
    if own == [] then []
    else DeletesOf(own[..|own| - 1], keep) + if own[|own| - 1].name == keep then [] else [Delete(own[|own| - 1])]
  }

  /** Deletes every one of the Secrets own, but the one named keep, until a delete
      fails. own are the Secrets listed with the registration labels of the
      Cluster; reply is what the API server answers a call. */
  method Unregister(own: Option<seq<SecretObject>>, keep: string, reply: Call<Secret> -> Reply) returns (ok: bool, calls: seq<Call<Secret>>)
    ensures own.None? ==> !ok && calls == []
    ensures own.Some? ==> calls <= DeletesOf(own.value, keep) && (ok ==> calls == DeletesOf(own.value, keep))
    ensures forall call :: call in calls ==> call.Delete? && own.Some? && call.listed in own.value && call.listed.name != keep
  {
    calls := [];
    if own.None? {
      return false, [];
    }
    var secrets := own.value;
    for i := 0 to |secrets|
      invariant calls == DeletesOf(secrets[..i], keep)
      invariant forall call :: call in calls ==> call.Delete? && call.listed in secrets && call.listed.name != keep
    {
      assert secrets[..i + 1][..i] == secrets[..i];
      if secrets[i].name == keep {
        continue;
      }
      calls := calls + [Delete(secrets[i])];
      if reply(calls[|calls| - 1]) != Done && reply(calls[|calls| - 1]) != NotFound {
        DeletesGrow(secrets, i + 1, keep);
        return false, calls;
      }
    }
    assert secrets[..|secrets|] == secrets;
    return true, calls;
  }

  lemma {:induction false} DeletesGrow(own: seq<SecretObject>, i: nat, keep: string)
    requires i <= |own|
    ensures DeletesOf(own[..i], keep) <= DeletesOf(own, keep)
    decreases |own| - i
  {
    if i < |own| {
      DeletesGrow(own, i + 1, keep);
      assert own[..i + 1][..i] == own[..i];
    } else {
      assert own[..i] == own;
    }
  }

  /** What a registration comes to, from the cluster Secrets that were listed. */
  datatype Plan = Conflicting | Updating(existing: SecretObject) | Creating

  /** The first of the Secrets named name. */
  function Find(secrets: seq<SecretObject>, name: string): (i: nat)
    ensures i <= |secrets|
    ensures i < |secrets| ==> secrets[i].name == name
    ensures forall j :: 0 <= j < i ==> secrets[j].name != name
  {
    if secrets == [] || secrets[0].name == name then 0 else 1 + Find(secrets[1..], name)
  }

  function PlanOf(h: Hashes, c: ClusterId, server: string, secrets: seq<SecretObject>): Plan {
    var i := Find(secrets, SecretName(h, server));
    if SameServer(server, IN_CLUSTER_SERVER) then Conflicting
    else if exists o :: o in secrets && ConflictsWith(h, o, c, server) then Conflicting
    else if i < |secrets| then
      if Managed(secrets[i].content) == Some(c) then Updating(secrets[i]) else Conflicting
    else Creating
  }

  /** A call that a registration of c as k makes. */
  predicate IsRegistering(h: Hashes, c: ClusterId, k: Kubeconfig, secrets: Option<seq<SecretObject>>, own: Option<seq<SecretObject>>, call: Call<Secret>) {
    match call
    case Delete(listed) => own.Some? && listed in own.value
    case Create(name, content) => name == SecretName(h, k.server) && content == ClusterSecret(h, c, k)
    case Update(listed, content) =>
      && secrets.Some? && listed in secrets.value && listed.name == SecretName(h, k.server)
      && Managed(listed.content) == Some(c) && content == ClusterSecret(h, c, k)
  }

  /** The calls of a registration as planned, as far as they succeeded. */
  predicate Follows(h: Hashes, c: ClusterId, k: Kubeconfig, secrets: seq<SecretObject>, own: Option<seq<SecretObject>>,
                    registration: Registration, calls: seq<Call<Secret>>) {
    var name, desired := SecretName(h, k.server), ClusterSecret(h, c, k);
    match PlanOf(h, c, k.server, secrets)
    case Conflicting => registration == ClusterConflict && (own.Some? ==> calls <= DeletesOf(own.value, ""))
    case Updating(existing) => calls == if existing.content == desired then [] else [Update(existing, desired)]
    case Creating => registration == Registered ==> own.Some? && calls == DeletesOf(own.value, name) + [Create(name, desired)]
  }

  /** Registers the cluster of c, unless something else registered its server;
      secrets are the cluster Secrets that were listed, own those of c. */
  method Register(h: Hashes, c: ClusterId, kubeconfig: Option<Kubeconfig>, secrets: Option<seq<SecretObject>>,
                  own: Option<seq<SecretObject>>, reply: Call<Secret> -> Reply)
    returns (registration: Registration, calls: seq<Call<Secret>>)
    ensures kubeconfig.None? ==> registration == Registered && calls == []
    ensures kubeconfig.Some? ==> forall call :: call in calls ==> IsRegistering(h, c, kubeconfig.value, secrets, own, call)
    ensures kubeconfig.Some? && secrets.Some? ==> Follows(h, c, kubeconfig.value, secrets.value, own, registration, calls)
  {
    calls := [];
    if kubeconfig.None? {
      return Registered, [];
    }
    var server := kubeconfig.value.server;
    var ok;
    if SameServer(server, IN_CLUSTER_SERVER) {
      ok, calls := Unregister(own, "", reply);
      return ClusterConflict, calls;
    }
    if secrets.None? {
      return NotRegistered, [];
    }
    var conflicts := Conflicts(h, secrets.value, c, server);
    if conflicts != [] {
      ok, calls := Unregister(own, "", reply);
      return ClusterConflict, calls;
    }
    var desired := ClusterSecret(h, c, kubeconfig.value);
    var name := SecretName(h, server);
    var i := Find(secrets.value, name);
    if i < |secrets.value| {
      var existing := secrets.value[i];
      if Managed(existing.content) != Some(c) {
        ok, calls := Unregister(own, "", reply);
        return ClusterConflict, calls;
      }
      if existing.content == desired {
        return Registered, [];
      }
      calls := [Update(existing, desired)];
      return if reply(calls[0]) == Done then Registered else NotRegistered, calls;
    }
    ok, calls := Unregister(own, name, reply);
    if !ok {
      return NotRegistered, calls;
    }
    calls := calls + [Create(name, desired)];
    return if reply(Create(name, desired)) == Done then Registered else NotRegistered, calls;
  }

  // ---------------------------------------------------- every interleaving

  /** The Secrets that are listed for c, by their labels. */
  predicate Selected(c: ClusterId, s: Secret) {
    forall l :: l in RegistrationLabels(c) ==> l in s.labels && s.labels[l] == RegistrationLabels(c)[l]
  }

  /** A call Kokumi makes for c, of objects it read at any time before. */
  ghost predicate IsOwnCall(h: Hashes, s: Store<Secret>, c: ClusterId, call: Call<Secret>) {
    match call
    case Delete(listed) => listed in s.ever && Managed(listed.content) == Some(c)
    case Create(name, content) => exists k: Kubeconfig :: name == SecretName(h, k.server) && content == ClusterSecret(h, c, k)
    case Update(listed, content) =>
      && listed in s.ever && Managed(listed.content) == Some(c)
      && exists k: Kubeconfig :: listed.name == SecretName(h, k.server) && content == ClusterSecret(h, c, k)
  }

  /** Anything others do to Secrets that do not carry Kokumi's labels, and any
      delete. */
  predicate IsOthersCall(s: Store<Secret>, call: Call<Secret>) {
    match call
    case Delete(listed) => listed in s.ever
    case Create(_, content) => Managed(content).None?
    case Update(listed, content) => listed in s.ever && Managed(listed.content).None? && Managed(content).None?
  }

  datatype Step = ByKokumi(c: ClusterId, call: Call<Secret>) | ByOthers(call: Call<Secret>)

  ghost predicate Enabled(h: Hashes, s: Store<Secret>, step: Step) {
    match step
    case ByKokumi(c, call) => IsNamed(c) && IsOwnCall(h, s, c, call)
    case ByOthers(call) => IsOthersCall(s, call)
  }

  ghost predicate IsRun(h: Hashes, steps: seq<Step>, states: seq<Store<Secret>>) {
    && |states| == |steps| + 1
    && StoreOk(states[0]) && (forall o :: o in states[0].ever ==> Managed(o.content).None?)
    && forall i :: 0 <= i < |steps| ==> Enabled(h, states[i], steps[i]) && states[i + 1] == Take(states[i], steps[i].call)
  }

  /** The Secrets Kokumi manages are named after their servers. */
  predicate NamedByServer(h: Hashes, s: Store<Secret>) {
    forall n :: n in s.objects && Managed(s.objects[n].content).Some? ==> n == SecretName(h, At(s.objects[n].content.data, "server"))
  }

  /** The calls of a registration are calls for its own Cluster. */
  lemma {:induction false} RegistersItsOwn(h: Hashes, s: Store<Secret>, c: ClusterId, k: Kubeconfig, secrets: Option<seq<SecretObject>>,
                                           own: Option<seq<SecretObject>>, call: Call<Secret>)
    requires IsNamed(c) && IsRegistering(h, c, k, secrets, own, call)
    requires secrets.Some? ==> forall o :: o in secrets.value ==> o in s.ever
    requires own.Some? ==> forall o :: o in own.value ==> o in s.ever && Selected(c, o.content)
    ensures IsOwnCall(h, s, c, call)
  {
    if call.Delete? {
      var l := call.listed.content;
      assert LABEL_CLUSTER in RegistrationLabels(c) && LABEL_CLUSTER_NAMESPACE in RegistrationLabels(c) && LABEL_MANAGED_BY in RegistrationLabels(c);
      assert LABEL_CLUSTER != LABEL_CLUSTER_NAMESPACE && LABEL_MANAGED_BY != LABEL_CLUSTER && LABEL_MANAGED_BY != LABEL_CLUSTER_NAMESPACE;
    }
  }

  lemma {:induction false} StepKeeps(h: Hashes, s: Store<Secret>, step: Step)
    requires StoreOk(s) && NamedByServer(h, s) && Enabled(h, s, step)
    ensures NamedByServer(h, Take(s, step.call))
  {
    HitsWhatWasListed(s, step.call);
    if step.ByKokumi? && !step.call.Delete? && Hits(s, step.call) {
      var k: Kubeconfig :| NameOf(step.call) == SecretName(h, k.server) && step.call.content == ClusterSecret(h, step.c, k);
      ClusterSecretIsManaged(h, step.c, k);
    }
  }

  lemma {:induction false} RunKeeps(h: Hashes, steps: seq<Step>, states: seq<Store<Secret>>, i: nat)
    requires IsRun(h, steps, states) && i < |states|
    ensures StoreOk(states[i]) && NamedByServer(h, states[i])
  {
    if i > 0 {
      RunKeeps(h, steps, states, i - 1);
      StepKeeps(h, states[i - 1], steps[i - 1]);
      TakeKeeps(states[i - 1], steps[i - 1].call);
    }
  }

  /** Whatever the Clusters do at the same time, from caches however stale: no two
      Secrets that Kokumi manages register the same server. */
  lemma {:induction false} OneSecretPerServer(h: Hashes, steps: seq<Step>, states: seq<Store<Secret>>, i: nat, n: string, m: string)
    requires IsRun(h, steps, states) && i < |states|
    requires n in states[i].objects && m in states[i].objects && n != m
    requires Managed(states[i].objects[n].content).Some? && Managed(states[i].objects[m].content).Some?
    ensures !SameServer(At(states[i].objects[n].content.data, "server"), At(states[i].objects[m].content.data, "server"))
  {
    RunKeeps(h, steps, states, i);
  }

  /** What Kokumi does for a Cluster changes only Secrets whose labels name that
      Cluster, before and after. */
  lemma {:induction false} OnlyItsOwn(h: Hashes, steps: seq<Step>, states: seq<Store<Secret>>, i: nat, n: string)
    requires IsRun(h, steps, states) && i < |steps| && steps[i].ByKokumi?
    ensures var s, t := states[i].objects, states[i + 1].objects;
            || (n !in s && n !in t)
            || (n in s && n in t && s[n] == t[n])
            || ((n in s ==> Managed(s[n].content) == Some(steps[i].c)) && (n in t ==> Managed(t[n].content) == Some(steps[i].c)))
  {
    RunKeeps(h, steps, states, i);
    var s, step := states[i], steps[i];
    HitsWhatWasListed(s, step.call);
    if n == NameOf(step.call) && Hits(s, step.call) && !step.call.Delete? {
      var k: Kubeconfig :| NameOf(step.call) == SecretName(h, k.server) && step.call.content == ClusterSecret(h, step.c, k);
      ClusterSecretIsManaged(h, step.c, k);
    }
  }
}

/** Which Applications Kokumi writes: internal/controller/argocd.go,
    internal/argocd/application.go. */
module AppOwnership {
  import opened Objects
  import opened Ownership

  const ANNOTATION_ALLOWED_ORDER := "delivery.kokumi.dev/allowed-order"

  /** An Application; its spec is encoded. */
  datatype Application = Application(labels: map<string, string>, annotations: map<string, string>, spec: string)

  type AppObject = Object<Application>

  datatype OrderId = OrderId(namespace: string, order: string)

  function AllowedOrder(o: OrderId): string {
    o.namespace + "/" + o.order
  }

  predicate OptedIn(app: Application, o: OrderId) {
    At(app.annotations, ANNOTATION_ALLOWED_ORDER) == AllowedOrder(o)
  }

  /** What reading the Application comes to. */
  datatype Existing = NotInstalled | Unreadable | Absent | Present(app: AppObject)

  datatype Applied = HeldNotInstalled | HeldOptInRequired | Deploying | Reports(app: Application) | ApplyFailed

  /** The calls that point the Application name at what desired deploys. */
  function AppliesOf(order: OrderId, name: string, desired: Application, existing: Existing): seq<Call<Application>> {
    match existing
    case Absent => [Create(name, desired)]
    case Present(app) => if OptedIn(app.content, order) && app.content != desired then [Update(app, desired)] else []
    case _ => []
  }

  /** Points the Application name at what desired deploys, unless it is there and
      not opted in for the Order. */
  method Apply(order: OrderId, name: string, desired: Application, existing: Existing, reply: Call<Application> -> Reply)
    returns (applied: Applied, calls: seq<Call<Application>>)
    requires OptedIn(desired, order)
    ensures calls == AppliesOf(order, name, desired, existing)
    ensures existing.NotInstalled? || existing.Unreadable? ==> calls == []
    ensures existing.Absent? ==> calls == [Create(name, desired)]
    ensures existing.Present? && !OptedIn(existing.app.content, order) ==> calls == [] && applied == HeldOptInRequired
    ensures existing.Present? && OptedIn(existing.app.content, order) ==>
              calls == if existing.app.content == desired then [] else [Update(existing.app, desired)]
    ensures applied.Reports? ==> applied.app == desired
  {
    match existing
    case NotInstalled => return HeldNotInstalled, [];
    case Unreadable => return ApplyFailed, [];
    case Absent =>
      calls := [Create(name, desired)];
      match reply(calls[0]) {
        case Done => return Reports(desired), calls;
        case AlreadyExists => return Deploying, calls;
        case _ => return ApplyFailed, calls;
      }
    case Present(app) =>
      if !OptedIn(app.content, order) {
        return HeldOptInRequired, [];
      }
      if app.content == desired {
        return Reports(app.content), [];
      }
      calls := [Update(app, desired)];
      return if reply(calls[0]) == Done then Reports(desired) else ApplyFailed, calls;
  }

  function ClusterOf(app: Application): string { At(app.labels, LABEL_CLUSTER) }

  predicate Removes(order: OrderId, keep: set<string>, app: AppObject) {
    ClusterOf(app.content) !in keep && OptedIn(app.content, order)
  }

  /** The deletes of the Applications on clusters that are not kept. */
  function RemovalsOf(order: OrderId, apps: seq<AppObject>, keep: set<string>): seq<Call<Application>> {
    if apps == [] then []
    else
      var last := apps[|apps| - 1];
      RemovalsOf(order, apps[..|apps| - 1], keep) + if Removes(order, keep, last) then [Delete(last)] else []
  }

  lemma {:induction false} RemovalsGrow(order: OrderId, apps: seq<AppObject>, i: nat, keep: set<string>)
    requires i <= |apps|
    ensures RemovalsOf(order, apps[..i], keep) <= RemovalsOf(order, apps, keep)
    decreases |apps| - i
  {
    if i < |apps| {
      RemovalsGrow(order, apps, i + 1, keep);
      assert apps[..i + 1][..i] == apps[..i];
    } else {
      assert apps[..i] == apps;
    }
  }

  /** Deletes the Applications on the clusters keep does not hold, until a delete
      fails; one that is not opted in for the Order is kept. */
  method Remove(order: OrderId, apps: seq<AppObject>, keep: set<string>, reply: Call<Application> -> Reply)
    returns (ok: bool, removed: seq<string>, calls: seq<Call<Application>>)
    ensures forall call :: call in calls ==> call.Delete? && call.listed in apps && Removes(order, keep, call.listed)
    ensures calls <= RemovalsOf(order, apps, keep) && (ok ==> calls == RemovalsOf(order, apps, keep) && |removed| == |calls|)
    ensures |removed| <= |calls| && forall i :: 0 <= i < |removed| ==> calls[i].Delete? && removed[i] == ClusterOf(calls[i].listed.content)
  {
    removed, calls := [], [];
    for i := 0 to |apps|
      invariant calls == RemovalsOf(order, apps[..i], keep) && |removed| == |calls|
      invariant forall call :: call in calls ==> call.Delete? && call.listed in apps && Removes(order, keep, call.listed)
      invariant forall j :: 0 <= j < |removed| ==> removed[j] == ClusterOf(calls[j].listed.content)
    {
      assert apps[..i + 1][..i] == apps[..i];
      var app := apps[i];
      if ClusterOf(app.content) in keep {
        continue;
      }
      if !OptedIn(app.content, order) {
        continue;
      }
      calls := calls + [Delete(app)];
      var answer := reply(Delete(app));
      if answer != Done && answer != NotFound {
        RemovalsGrow(order, apps, i + 1, keep);
        return false, removed, calls;
      }
      removed := removed + [ClusterOf(app.content)];
    }
    assert apps[..|apps|] == apps;
    ok := true;
  }

  /** A call Kokumi makes for an Order, of an Application it read at any time. */
  predicate IsOrdersCall(s: Store<Application>, order: OrderId, call: Call<Application>) {
    match call
    case Create(_, content) => OptedIn(content, order)
    case Update(listed, content) => listed in s.ever && OptedIn(listed.content, order) && OptedIn(content, order)
    case Delete(listed) => listed in s.ever && OptedIn(listed.content, order)
  }

  /** The calls Apply may make, of an Application it read at any time, are calls
      for the Order. */
  lemma {:induction false} AppliesItsOwn(s: Store<Application>, order: OrderId, name: string, desired: Application, existing: Existing,
                                         call: Call<Application>)
    requires OptedIn(desired, order) && (existing.Present? ==> existing.app in s.ever)
    requires call in AppliesOf(order, name, desired, existing)
    ensures IsOrdersCall(s, order, call)
  {
    assert |AppliesOf(order, name, desired, existing)| == 1 && call == AppliesOf(order, name, desired, existing)[0];
  }

  /** So are those Remove makes, of Applications it listed at any time. */
  lemma {:induction false} RemovesItsOwn(s: Store<Application>, order: OrderId, apps: seq<AppObject>, keep: set<string>, call: Call<Application>)
    requires (forall app :: app in apps ==> app in s.ever) && call in RemovalsOf(order, apps, keep)
    ensures IsOrdersCall(s, order, call)
  {
    var n := |apps| - 1;
    if apps != [] && call in RemovalsOf(order, apps[..n], keep) {
      RemovesItsOwn(s, order, apps[..n], keep, call);
    } else {
      assert apps[n] in apps;
    }
  }

  datatype Step = ByOrder(order: OrderId, call: Call<Application>) | ByOthers(call: Call<Application>)

  predicate Enabled(s: Store<Application>, step: Step) {
    match step
    case ByOrder(order, call) => IsOrdersCall(s, order, call)
    case ByOthers(call) => !call.Create? ==> call.listed in s.ever
  }

  ghost predicate IsRun(steps: seq<Step>, states: seq<Store<Application>>) {
    && |states| == |steps| + 1 && StoreOk(states[0])
    && forall i :: 0 <= i < |steps| ==> Enabled(states[i], steps[i]) && states[i + 1] == Take(states[i], steps[i].call)
  }

  lemma {:induction false} RunKeeps(steps: seq<Step>, states: seq<Store<Application>>, i: nat)
    requires IsRun(steps, states) && i < |states|
    ensures StoreOk(states[i])
  {
    if i > 0 {
      RunKeeps(steps, states, i - 1);
      TakeKeeps(states[i - 1], steps[i - 1].call);
    }
  }

  /** Whoever changes Applications in between: one that is not opted in for the
      Order, as it is when the write arrives, is never updated or deleted for it. */
  lemma {:induction false} NeverWithoutOptIn(steps: seq<Step>, states: seq<Store<Application>>, i: nat, n: string)
    requires IsRun(steps, states) && i < |steps| && steps[i].ByOrder?
    requires n in states[i].objects && !OptedIn(states[i].objects[n].content, steps[i].order)
    ensures n in states[i + 1].objects && states[i + 1].objects[n] == states[i].objects[n]
  {
    RunKeeps(steps, states, i);
    HitsWhatWasListed(states[i], steps[i].call);
  }
}
