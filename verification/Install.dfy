/**
 The Reconcile methods of the installation stages as far as objects are created, and the round trip:
 a finished cleanup removes what any number of install passes created.
 */
module Install {
  import opened Kube
  import opened Observability
  import opened Stack
  import opened Webhook
  import Teardown
  import CleanupPass

  // ---------- What a run may add ----------

  /** What installing writes: owned objects, and the token lifetimes map with its label. */
  function InstallMark(owned: set<Key>, lifetimes: Key): (Key, Obj) -> bool {
    (k: Key, o: Obj) => k in owned || (k == lifetimes && Matches(o, ManagedBy))
  }

  /** All that `s` has and that was not so at `start` is of that kind. */
  ghost predicate Within(owned: set<Key>, lifetimes: Key, start: Store, s: Store) {
    Adds(start, s, InstallMark(owned, lifetimes))
  }

  /** So it is after every call since the log had `n` entries, and now. */
  ghost predicate Contained(owned: set<Key>, lifetimes: Key, start: Store, n: nat, log: seq<Step>, now: Store) {
    && n <= |log|
    && (forall i :: n <= i < |log| ==> Within(owned, lifetimes, start, log[i].post.store))
    && Within(owned, lifetimes, start, now)
    && Spares(log, n, start, ProxyKinds) && SameKinds(start, now, ProxyKinds)
  }

  const NotCreated := ProxyKinds + {ConfigMap}

  ghost predicate AllIn(ks: seq<Key>, owned: set<Key>) {
    forall i :: 0 <= i < |ks| ==> ks[i] in owned && ks[i].kind !in NotCreated
  }

  ghost predicate Present(s: Store, ks: seq<Key>) {
    forall i :: 0 <= i < |ks| ==> ks[i] in s
  }

  ghost predicate Keeps(a: Store, b: Store) {
    forall k :: k in a ==> k in b
  }

  /** All is kept but an old subscription to Grafana and old ClusterServiceVersions. */
  ghost predicate KeepsCurrent(cr: Cr, a: Store, b: Store) {
    forall k :: k in a && k !in b ==> k.kind == Csv || k == GrafanaSubscription(cr)
  }

  predicate CommunitySubscription(o: Obj) {
    && "catalogSource" in o.data && o.data["catalogSource"] == "community-operators"
    && "catalogSourceNamespace" in o.data && o.data["catalogSourceNamespace"] == "openshift-marketplace"
  }

  /** Grafana's subscription, if there is one, is not to the community catalog. */
  ghost predicate Current(cr: Cr, s: Store) {
    GrafanaSubscription(cr) in s ==> !CommunitySubscription(s[GrafanaSubscription(cr)])
  }

  /** Nothing has become a subscription to the community catalog. */
  ghost predicate StaysCurrent(a: Store, b: Store) {
    forall k :: k in b && CommunitySubscription(b[k]) ==> k in a && CommunitySubscription(a[k])
  }

  lemma ContainedOn(owned: set<Key>, lifetimes: Key, start: Store, n: nat, log: seq<Step>, was: Store, step: Step)
    requires Contained(owned, lifetimes, start, n, log, was) && Within(owned, lifetimes, start, step.post.store)
    requires SameKinds(was, step.post.store, ProxyKinds)
    ensures Contained(owned, lifetimes, start, n, log + [step], step.post.store)
  {
  }

  // ---------- The calls ----------

  method Ensure(c: Cluster, k: Key, ghost owned: set<Key>, ghost lifetimes: Key, ghost start: Store, ghost n: nat) returns (ok: bool)
    requires Contained(owned, lifetimes, start, n, c.log, c.store) && k in owned && k.kind !in NotCreated && lifetimes.kind == ConfigMap
    modifies c
    ensures old(c.log) <= c.log && Contained(owned, lifetimes, start, n, c.log, c.store) && Keeps(old(c.store), c.store)
    ensures ok ==> k in c.store
    ensures StaysCurrent(old(c.store), c.store) && (c.Reliable() ==> ok)
  {
    ok := c.CreateOrUpdate(k, (o: Obj) => o);
    ContainedOn(owned, lifetimes, start, n, old(c.log), old(c.store), c.log[|old(c.log)|]);
  }

  /** Consecutive create-or-update calls. */
  method EnsureAll(c: Cluster, ks: seq<Key>, ghost owned: set<Key>, ghost lifetimes: Key, ghost start: Store, ghost n: nat) returns (ok: bool)
    requires Contained(owned, lifetimes, start, n, c.log, c.store) && AllIn(ks, owned) && lifetimes.kind == ConfigMap
    modifies c
    ensures old(c.log) <= c.log && Contained(owned, lifetimes, start, n, c.log, c.store) && Keeps(old(c.store), c.store)
    ensures ok ==> Present(c.store, ks)
    ensures StaysCurrent(old(c.store), c.store) && (c.Reliable() ==> ok)
  {
    ok := true;
    for i := 0 to |ks|
      invariant StaysCurrent(old(c.store), c.store)
      invariant ok && old(c.log) <= c.log && Contained(owned, lifetimes, start, n, c.log, c.store) && Keeps(old(c.store), c.store)
      invariant forall j :: 0 <= j < i ==> ks[j] in c.store
    {
      ok := Ensure(c, ks[i], owned, lifetimes, start, n);
      if !ok { break; }
    }
  }

  method Remove(c: Cluster, k: Key, ghost owned: set<Key>, ghost lifetimes: Key, ghost start: Store, ghost n: nat) returns (ack: Ack)
    requires Contained(owned, lifetimes, start, n, c.log, c.store) && k.kind !in ProxyKinds
    modifies c
    ensures old(c.log) <= c.log && Contained(owned, lifetimes, start, n, c.log, c.store)
    ensures forall x :: x in old(c.store) && x !in c.store ==> x == k
    ensures StaysCurrent(old(c.store), c.store) && (c.Reliable() ==> ack == if k in old(c.store) then Done else Missing)
  {
    ack := c.Delete(k);
    ContainedOn(owned, lifetimes, start, n, old(c.log), old(c.store), c.log[|old(c.log)|]);
  }

  method Lookup(c: Cluster, k: Key, ghost owned: set<Key>, ghost lifetimes: Key, ghost start: Store, ghost n: nat) returns (reply: Reply)
    requires Contained(owned, lifetimes, start, n, c.log, c.store)
    modifies c
    ensures old(c.log) <= c.log && Contained(owned, lifetimes, start, n, c.log, c.store) && c.store == old(c.store)
    ensures c.Reliable() ==> !reply.GetFailed?
  {
    reply := c.Get(k);
    ContainedOn(owned, lifetimes, start, n, old(c.log), old(c.store), c.log[|old(c.log)|]);
  }

  method Scan(c: Cluster, kind: Kind, ns: string, ghost owned: set<Key>, ghost lifetimes: Key, ghost start: Store, ghost n: nat)
    returns (listing: Listing)
    requires Contained(owned, lifetimes, start, n, c.log, c.store)
    modifies c
    ensures old(c.log) <= c.log && Contained(owned, lifetimes, start, n, c.log, c.store) && c.store == old(c.store)
    ensures listing.Listed? ==> Enumerates(listing.order, listing.items) && listing.items == Selected(c.store, kind, ns, map[])
    ensures c.Reliable() ==> listing.Listed?
  {
    listing := c.List(kind, ns, map[]);
    ContainedOn(owned, lifetimes, start, n, old(c.log), old(c.store), c.log[|old(c.log)|]);
  }

  /** The operator's deployment, which others run: has it ready replicas? */
  method WaitForDeployment(c: Cluster, k: Key, ghost owned: set<Key>, ghost lifetimes: Key, ghost start: Store, ghost n: nat) returns (status: StageStatus)
    requires Contained(owned, lifetimes, start, n, c.log, c.store)
    modifies c
    ensures old(c.log) <= c.log && Contained(owned, lifetimes, start, n, c.log, c.store) && c.store == old(c.store)
    ensures !status.ResultFailed? ==> (status.ResultSuccess? <==> c.shown(old(c.calls), k).replicas > 0)
    ensures c.Reliable() ==> !status.ResultFailed?
  {
    var ok, ready := c.SeesReady(k);
    ContainedOn(owned, lifetimes, start, n, old(c.log), old(c.store), c.log[|old(c.log)|]);
    status := if !ok then ResultFailed else if ready then ResultSuccess else ResultInProgress;
  }

  method IsRouteReady(ingress: seq<seq<Condition>>) returns (ready: bool)
    ensures ready <==> Admitted(ingress)
  {
    for i := 0 to |ingress|
      invariant Admitted(ingress[..i])
    {
      assert forall m :: 0 <= m < i ==> ingress[..i + 1][m] == ingress[..i][m];
      for j := 0 to |ingress[i]|
        invariant forall m :: 0 <= m < j && ingress[i][m].admission ==> ingress[i][m].met
      {
        if ingress[i][j].admission && !ingress[i][j].met { return false; }
      }
    }
    assert ingress[..|ingress|] == ingress;
    return true;
  }

  /** A route is ready unless an ingress refuses it: a fresh one is. */
  method WaitForRoute(c: Cluster, k: Key, ghost owned: set<Key>, ghost lifetimes: Key, ghost start: Store, ghost n: nat) returns (status: StageStatus)
    requires Contained(owned, lifetimes, start, n, c.log, c.store)
    modifies c
    ensures old(c.log) <= c.log && Contained(owned, lifetimes, start, n, c.log, c.store) && c.store == old(c.store)
    ensures status.ResultSuccess? ==> k in c.store && Admitted(c.shown(old(c.calls), k).ingress)
    ensures c.Reliable() && k in c.store && Admitted(c.shown(old(c.calls), k).ingress) ==> status.ResultSuccess?
  {
    var reply, now := c.GetStatus(k);
    ContainedOn(owned, lifetimes, start, n, old(c.log), old(c.store), c.log[|old(c.log)|]);
    var ready := IsRouteReady(now.ingress);
    status := match reply
      case Found(_) => if ready then ResultSuccess else ResultInProgress
      case NotFound => ResultInProgress
      case GetFailed => ResultFailed;
  }

  /** Creates the operator group unless one in `ns` targets `ns`; the targets are the keys of its data. */
  method EnsureOperatorGroup(c: Cluster, ns: string, group: Key, ghost owned: set<Key>, ghost lifetimes: Key, ghost start: Store, ghost n: nat)
    returns (ok: bool)
    requires Contained(owned, lifetimes, start, n, c.log, c.store) && group in owned && group.kind !in NotCreated && lifetimes.kind == ConfigMap
    modifies c
    ensures old(c.log) <= c.log && Contained(owned, lifetimes, start, n, c.log, c.store) && Keeps(old(c.store), c.store)
    ensures ok ==> group in c.store || exists k :: k in Selected(c.store, OperatorGroup, ns, map[]) && ns in c.store[k].data
    ensures StaysCurrent(old(c.store), c.store) && (c.Reliable() ==> ok)
  {
    var listing := Scan(c, OperatorGroup, ns, owned, lifetimes, start, n);
    if listing.ListFailed? { return false; }
    for i := 0 to |listing.order| {
      assert listing.order[i] in listing.items;
      if ns in listing.items[listing.order[i]].data { return true; }
    }
    ok := Ensure(c, group, owned, lifetimes, start, n);
  }

  // ---------- The stages ----------

  function PrometheusInstallationCreates(cr: Cr): seq<Key> { [PrometheusCatalogSource(cr), PrometheusSubscription(cr)] }
  function PrometheusConfigurationCreates(cr: Cr): seq<Key> {
    [PrometheusProxySecret(cr), PrometheusAccount(cr), PrometheusRole(cr), PrometheusBinding(cr), PrometheusService(cr), PrometheusRoute(cr)]
  }
  function GrafanaInstallationCreates(cr: Cr): seq<Key> { [GrafanaCatalogSource(cr), GrafanaSubscription(cr)] }
  function GrafanaConfigurationCreates(cr: Cr): seq<Key> {
    [GrafanaProxySecret(cr), GrafanaRole(), GrafanaBinding(), GrafanaDatasource(cr)]
  }
  function AlertmanagerCreates(cr: Cr): seq<Key> {
    [AlertmanagerProxySecret(cr), AlertmanagerAccount(cr), AlertmanagerRole(cr), AlertmanagerBinding(cr), AlertmanagerService(cr), AlertmanagerRoute(cr)]
  }
  function PromtailCreates(cr: Cr): seq<Key> { [PromtailAccount(cr), PromtailRole(), PromtailBinding()] }

  method ReconcilePrometheusInstallation(c: Cluster, cr: Cr, ghost owned: set<Key>, ghost start: Store, ghost n: nat) returns (status: StageStatus)
    requires Contained(owned, TokenLifetimes(cr), start, n, c.log, c.store)
    requires AllIn(PrometheusInstallationCreates(cr), owned) && PrometheusOperatorGroup(cr) in owned
    requires cr.Descoped() ==> Key(Namespace, "", cr.OperatorNs()) in owned
    modifies c
    ensures old(c.log) <= c.log && Contained(owned, TokenLifetimes(cr), start, n, c.log, c.store)
    ensures status.ResultSuccess? ==> Present(c.store, PrometheusInstallationCreates(cr))
    ensures StaysCurrent(old(c.store), c.store) && (c.Reliable() && c.Obliging() ==> status.ResultSuccess?)
  {
    var ok := PrepareNamespace(c, cr, owned, start, n);
    if ok { ok := Subscribe(c, cr, PrometheusInstallationCreates(cr), PrometheusOperatorGroup(cr), owned, start, n); }
    status := ResultFailed;
    if ok { status := WaitForDeployment(c, Key(Deployment, cr.OperatorNs(), "prometheus-operator"), owned, TokenLifetimes(cr), start, n); }
  }

  /** Catalog source, subscription and operator group. */
  method Subscribe(c: Cluster, cr: Cr, ks: seq<Key>, group: Key, ghost owned: set<Key>, ghost start: Store, ghost n: nat) returns (ok: bool)
    requires Contained(owned, TokenLifetimes(cr), start, n, c.log, c.store)
    requires AllIn(ks, owned) && group in owned && group.kind !in NotCreated
    modifies c
    ensures old(c.log) <= c.log && Contained(owned, TokenLifetimes(cr), start, n, c.log, c.store) && Keeps(old(c.store), c.store)
    ensures ok ==> Present(c.store, ks)
    ensures StaysCurrent(old(c.store), c.store) && (c.Reliable() ==> ok)
  {
    ok := EnsureAll(c, ks, owned, TokenLifetimes(cr), start, n);
    if ok { ok := EnsureOperatorGroup(c, cr.ns, group, owned, TokenLifetimes(cr), start, n); }
  }

  method PrepareNamespace(c: Cluster, cr: Cr, ghost owned: set<Key>, ghost start: Store, ghost n: nat) returns (ok: bool)
    requires Contained(owned, TokenLifetimes(cr), start, n, c.log, c.store)
    requires cr.Descoped() ==> Key(Namespace, "", cr.OperatorNs()) in owned
    modifies c
    ensures old(c.log) <= c.log && Contained(owned, TokenLifetimes(cr), start, n, c.log, c.store)
    ensures StaysCurrent(old(c.store), c.store) && (c.Reliable() ==> ok)
  {
    ok := true;
    if cr.Descoped() { ok := Ensure(c, Key(Namespace, "", cr.OperatorNs()), owned, TokenLifetimes(cr), start, n); }
    if ok { ok := ClearOldOperator(c, cr, owned, start, n); }
  }

  /** Without the catalog source, an earlier operator may still be subscribed. */
  method ClearOldOperator(c: Cluster, cr: Cr, ghost owned: set<Key>, ghost start: Store, ghost n: nat) returns (ok: bool)
    requires Contained(owned, TokenLifetimes(cr), start, n, c.log, c.store)
    modifies c
    ensures old(c.log) <= c.log && Contained(owned, TokenLifetimes(cr), start, n, c.log, c.store)
    ensures StaysCurrent(old(c.store), c.store) && (c.Reliable() ==> ok)
  {
    var source := Lookup(c, PrometheusCatalogSource(cr), owned, TokenLifetimes(cr), start, n);
    ok := !source.GetFailed?;
    if source.NotFound? {
      var ack := Remove(c, PrometheusSubscription(cr), owned, TokenLifetimes(cr), start, n);
      if ack != Failed { ack := Remove(c, Key(Csv, cr.OperatorNs(), "prometheusoperator.0.56.3"), owned, TokenLifetimes(cr), start, n); }
      ok := ack != Failed;
    }
  }

  /** `clusterId` says whether the cluster id is known or can be fetched. */
  method ReconcilePrometheusConfiguration(c: Cluster, cr: Cr, clusterId: bool, ghost owned: set<Key>, ghost start: Store, ghost n: nat)
    returns (status: StageStatus)
    requires Contained(owned, TokenLifetimes(cr), start, n, c.log, c.store)
    requires AllIn(PrometheusConfigurationCreates(cr), owned)
    modifies c
    ensures old(c.log) <= c.log && Contained(owned, TokenLifetimes(cr), start, n, c.log, c.store)
    ensures Keeps(old(c.store), c.store)
    ensures status.ResultSuccess? ==> Present(c.store, PrometheusConfigurationCreates(cr)) && TokenLifetimes(cr) in c.store
    ensures StaysCurrent(old(c.store), c.store) && (c.Reliable() && c.Obliging() && clusterId ==> status.ResultSuccess?)
  {
    var ok := EnsureAll(c, PrometheusConfigurationCreates(cr), owned, TokenLifetimes(cr), start, n);
    status := ResultFailed;
    if ok {
      assert PrometheusConfigurationCreates(cr)[5] == PrometheusRoute(cr);
      status := WaitForRoute(c, PrometheusRoute(cr), owned, TokenLifetimes(cr), start, n);
    }
    if status == ResultSuccess {
      ok := clusterId;
      if ok { ok := EnsureLifetimes(c, cr, owned, start, n); }
      if !ok { status := ResultFailed; }
    }
  }

  method EnsureLifetimes(c: Cluster, cr: Cr, ghost owned: set<Key>, ghost start: Store, ghost n: nat) returns (ok: bool)
    requires Contained(owned, TokenLifetimes(cr), start, n, c.log, c.store)
    modifies c
    ensures old(c.log) <= c.log && Contained(owned, TokenLifetimes(cr), start, n, c.log, c.store) && Keeps(old(c.store), c.store)
    ensures ok ==> TokenLifetimes(cr) in c.store
    ensures StaysCurrent(old(c.store), c.store) && (c.Reliable() ==> ok)
  {
    ok := c.CreateOrUpdate(TokenLifetimes(cr), (o: Obj) => o.(labels := ManagedBy));
    assert TokenLifetimes(cr) in c.store && c.store != old(c.store) ==> Matches(c.store[TokenLifetimes(cr)], ManagedBy);
    ContainedOn(owned, TokenLifetimes(cr), start, n, old(c.log), old(c.store), c.log[|old(c.log)|]);
  }

  method ReconcileGrafanaInstallation(c: Cluster, cr: Cr, ghost owned: set<Key>, ghost start: Store, ghost n: nat) returns (status: StageStatus)
    requires Contained(owned, TokenLifetimes(cr), start, n, c.log, c.store)
    requires !cr.Descoped() ==> AllIn(GrafanaInstallationCreates(cr), owned) && GrafanaOperatorGroup(cr) in owned
    modifies c
    ensures old(c.log) <= c.log && Contained(owned, TokenLifetimes(cr), start, n, c.log, c.store)
    ensures KeepsCurrent(cr, old(c.store), c.store)
    ensures !cr.Descoped() && status.ResultSuccess? ==> Present(c.store, GrafanaInstallationCreates(cr))
    ensures StaysCurrent(old(c.store), c.store) && (c.Reliable() && c.Obliging() && Current(cr, old(c.store)) ==> status.ResultSuccess?)
  {
    if cr.Descoped() { return ResultSuccess; }
    status := DropOldSubscriptions(c, cr, owned, start, n);
    if status == ResultSuccess {
      var ok := Subscribe(c, cr, GrafanaInstallationCreates(cr), GrafanaOperatorGroup(cr), owned, start, n);
      status := ResultFailed;
      if ok { status := WaitForDeployment(c, GrafanaOperator(cr), owned, TokenLifetimes(cr), start, n); }
    }
  }

  /** A subscription to the community catalog goes, and with it one old ClusterServiceVersion per pass. */
  method DropOldSubscriptions(c: Cluster, cr: Cr, ghost owned: set<Key>, ghost start: Store, ghost n: nat) returns (status: StageStatus)
    requires Contained(owned, TokenLifetimes(cr), start, n, c.log, c.store)
    modifies c
    ensures old(c.log) <= c.log && Contained(owned, TokenLifetimes(cr), start, n, c.log, c.store)
    ensures KeepsCurrent(cr, old(c.store), c.store)
    ensures StaysCurrent(old(c.store), c.store) && (c.Reliable() && Current(cr, old(c.store)) ==> status.ResultSuccess?)
  {
    var listing := Scan(c, Subscription, cr.ns, owned, TokenLifetimes(cr), start, n);
    if listing.ListFailed? { return ResultFailed; }
    var foundOld := false;
    for i := 0 to |listing.order|
      invariant old(c.log) <= c.log && Contained(owned, TokenLifetimes(cr), start, n, c.log, c.store)
      invariant KeepsCurrent(cr, old(c.store), c.store) && StaysCurrent(old(c.store), c.store)
      invariant Current(cr, old(c.store)) ==> !foundOld
    {
      assert listing.order[i] in listing.items;
      if listing.order[i] == GrafanaSubscription(cr) && CommunitySubscription(listing.items[listing.order[i]]) {
        var ack := Remove(c, listing.order[i], owned, TokenLifetimes(cr), start, n);
        foundOld := true;
        if ack != Done { return ResultFailed; }
      }
    }
    if !foundOld { return ResultSuccess; }
    status := DropOldCsv(c, cr, owned, start, n);
  }

  method DropOldCsv(c: Cluster, cr: Cr, ghost owned: set<Key>, ghost start: Store, ghost n: nat) returns (status: StageStatus)
    requires Contained(owned, TokenLifetimes(cr), start, n, c.log, c.store)
    modifies c
    ensures old(c.log) <= c.log && Contained(owned, TokenLifetimes(cr), start, n, c.log, c.store)
    ensures KeepsCurrent(cr, old(c.store), c.store) && StaysCurrent(old(c.store), c.store)
  {
    var listing := Scan(c, Csv, cr.ns, owned, TokenLifetimes(cr), start, n);
    if listing.ListFailed? { return ResultFailed; }
    for i := 0 to |listing.order|
      invariant old(c.log) <= c.log && Contained(owned, TokenLifetimes(cr), start, n, c.log, c.store)
      invariant KeepsCurrent(cr, old(c.store), c.store) && StaysCurrent(old(c.store), c.store)
    {
      assert listing.order[i] in listing.items;
      if HasPrefix(listing.order[i].name, "grafana-operator.") {
        var ack := Remove(c, listing.order[i], owned, TokenLifetimes(cr), start, n);
        return if ack == Failed then ResultFailed else ResultInProgress;
      }
    }
    return ResultSuccess;
  }

  method ReconcileGrafanaConfiguration(c: Cluster, cr: Cr, ghost owned: set<Key>, ghost start: Store, ghost n: nat) returns (status: StageStatus)
    requires Contained(owned, TokenLifetimes(cr), start, n, c.log, c.store)
    requires !cr.Descoped() ==> AllIn(GrafanaConfigurationCreates(cr), owned)
    modifies c
    ensures old(c.log) <= c.log && Contained(owned, TokenLifetimes(cr), start, n, c.log, c.store)
    ensures Keeps(old(c.store), c.store)
    ensures !cr.Descoped() && status.ResultSuccess? ==> Present(c.store, GrafanaConfigurationCreates(cr))
    ensures StaysCurrent(old(c.store), c.store) && (c.Reliable() ==> status.ResultSuccess?)
  {
    if cr.Descoped() { return ResultSuccess; }
    var ok := EnsureAll(c, GrafanaConfigurationCreates(cr), owned, TokenLifetimes(cr), start, n);
    status := if ok then ResultSuccess else ResultFailed;
  }

  method ReconcileAlertmanagerInstallation(c: Cluster, cr: Cr, ghost owned: set<Key>, ghost start: Store, ghost n: nat) returns (status: StageStatus)
    requires Contained(owned, TokenLifetimes(cr), start, n, c.log, c.store)
    requires AllIn(AlertmanagerCreates(cr), owned)
    modifies c
    ensures old(c.log) <= c.log && Contained(owned, TokenLifetimes(cr), start, n, c.log, c.store)
    ensures Keeps(old(c.store), c.store)
    ensures status.ResultSuccess? ==> Present(c.store, AlertmanagerCreates(cr))
    ensures StaysCurrent(old(c.store), c.store) && (c.Reliable() && c.Obliging() ==> status.ResultSuccess?)
  {
    var ok := EnsureAll(c, AlertmanagerCreates(cr), owned, TokenLifetimes(cr), start, n);
    status := ResultFailed;
    if ok {
      assert AlertmanagerCreates(cr)[5] == AlertmanagerRoute(cr);
      status := WaitForRoute(c, AlertmanagerRoute(cr), owned, TokenLifetimes(cr), start, n);
    }
  }

  method ReconcilePromtailInstallation(c: Cluster, cr: Cr, ghost owned: set<Key>, ghost start: Store, ghost n: nat) returns (status: StageStatus)
    requires Contained(owned, TokenLifetimes(cr), start, n, c.log, c.store)
    requires !PromtailOff(cr) ==> AllIn(PromtailCreates(cr), owned)
    modifies c
    ensures old(c.log) <= c.log && Contained(owned, TokenLifetimes(cr), start, n, c.log, c.store)
    ensures Keeps(old(c.store), c.store)
    ensures !PromtailOff(cr) && status.ResultSuccess? ==> Present(c.store, PromtailCreates(cr))
    ensures StaysCurrent(old(c.store), c.store) && (c.Reliable() ==> status.ResultSuccess?)
  {
    if PromtailOff(cr) { return ResultSuccess; }
    var ok := EnsureAll(c, PromtailCreates(cr), owned, TokenLifetimes(cr), start, n);
    status := if ok then ResultSuccess else ResultFailed;
  }

  // ---------- An install pass ----------

  function Elements(ks: seq<Key>): set<Key> { set k | k in ks }

  /** The fixed-name objects of the stages, which are those their Cleanup methods delete. */
  function Footprint(cr: Cr): set<Key> {
    PrometheusFootprint(cr) + GrafanaFootprint(cr) + AlertmanagerFootprint(cr) + PromtailFootprint(cr)
  }

  function PrometheusFootprint(cr: Cr): set<Key> {
    Elements(PrometheusFrontKeys(cr)) + Elements(PrometheusBackKeys(cr)) + Elements(PrometheusInstallationKeys(cr))
  }

  function GrafanaFootprint(cr: Cr): set<Key> {
    if cr.Descoped() then {} else {GrafanaCr(cr)} + Elements(GrafanaBackKeys(cr)) + Elements(GrafanaInstallationKeys(cr))
  }

  function AlertmanagerFootprint(cr: Cr): set<Key> {
    {AlertmanagerCr(cr)} + Elements(AlertmanagerBackKeys(cr))
  }

  function PromtailFootprint(cr: Cr): set<Key> {
    if PromtailOff(cr) then {} else Elements(PromtailKeys(cr))
  }

  /** Each of `ks` stands somewhere in `keys`. */
  lemma Drawn(ks: seq<Key>, keys: seq<Key>, at: seq<nat>)
    requires |at| == |ks| && forall i :: 0 <= i < |ks| ==> at[i] < |keys| && ks[i] == keys[at[i]] && ks[i].kind !in NotCreated
    ensures AllIn(ks, Elements(keys))
  {
    forall i | 0 <= i < |ks| ensures ks[i] in Elements(keys) {
      assert keys[at[i]] in keys;
    }
  }

  lemma Widened(ks: seq<Key>, part: set<Key>, whole: set<Key>)
    requires AllIn(ks, part) && part <= whole
    ensures AllIn(ks, whole)
  {
  }

  lemma PrometheusInstallationOwned(cr: Cr)
    ensures AllIn(PrometheusInstallationCreates(cr), Footprint(cr)) && PrometheusOperatorGroup(cr) in Footprint(cr)
    ensures cr.Descoped() ==> Key(Namespace, "", cr.OperatorNs()) in Footprint(cr)
  {
    var keys := PrometheusInstallationKeys(cr);
    Drawn(PrometheusInstallationCreates(cr), keys, [2, 0]);
    Widened(PrometheusInstallationCreates(cr), Elements(keys), Footprint(cr));
    assert keys[1] in Elements(keys);
    assert cr.Descoped() ==> keys[3] in Elements(keys);
  }

  lemma PrometheusBackOwned(cr: Cr)
    ensures AllIn(PrometheusConfigurationCreates(cr)[..5], Footprint(cr))
  {
    var back := PrometheusBackKeys(cr);
    Drawn(PrometheusConfigurationCreates(cr)[..5], back, [4, 2, 1, 0, 3]);
    Widened(PrometheusConfigurationCreates(cr)[..5], Elements(back), Footprint(cr));
  }

  lemma PrometheusRouteOwned(cr: Cr)
    ensures AllIn(PrometheusConfigurationCreates(cr)[5..], Footprint(cr))
  {
    var front := PrometheusFrontKeys(cr);
    Drawn(PrometheusConfigurationCreates(cr)[5..], front, [1]);
    Widened(PrometheusConfigurationCreates(cr)[5..], Elements(front), Footprint(cr));
  }

  lemma PrometheusConfigurationOwned(cr: Cr)
    ensures AllIn(PrometheusConfigurationCreates(cr), Footprint(cr))
  {
    PrometheusBackOwned(cr);
    PrometheusRouteOwned(cr);
    Joined(PrometheusConfigurationCreates(cr), 5, Footprint(cr));
  }

  lemma Joined(ks: seq<Key>, i: nat, owned: set<Key>)
    requires i <= |ks| && AllIn(ks[..i], owned) && AllIn(ks[i..], owned)
    ensures AllIn(ks, owned)
  {
    forall j | 0 <= j < |ks| ensures ks[j] in owned && ks[j].kind !in NotCreated {
      assert ks[j] == if j < i then ks[..i][j] else ks[i..][j - i];
    }
  }

  lemma GrafanaInstallationOwned(cr: Cr)
    requires !cr.Descoped()
    ensures AllIn(GrafanaInstallationCreates(cr), Footprint(cr)) && GrafanaOperatorGroup(cr) in Footprint(cr)
  {
    var keys := GrafanaInstallationKeys(cr);
    Drawn(GrafanaInstallationCreates(cr), keys, [0, 1]);
    Widened(GrafanaInstallationCreates(cr), Elements(keys), Footprint(cr));
    assert keys[2] in Elements(keys);
  }

  lemma GrafanaConfigurationOwned(cr: Cr)
    requires !cr.Descoped()
    ensures AllIn(GrafanaConfigurationCreates(cr), Footprint(cr))
  {
    Drawn(GrafanaConfigurationCreates(cr), GrafanaBackKeys(cr), [1, 3, 2, 0]);
    Widened(GrafanaConfigurationCreates(cr), Elements(GrafanaBackKeys(cr)), Footprint(cr));
  }

  lemma AlertmanagerOwned(cr: Cr)
    ensures AllIn(AlertmanagerCreates(cr), Footprint(cr))
  {
    Drawn(AlertmanagerCreates(cr), AlertmanagerBackKeys(cr), [1, 5, 6, 7, 4, 3]);
    Widened(AlertmanagerCreates(cr), Elements(AlertmanagerBackKeys(cr)), Footprint(cr));
  }

  lemma PromtailOwned(cr: Cr)
    requires !PromtailOff(cr)
    ensures AllIn(PromtailCreates(cr), Footprint(cr))
  {
    Drawn(PromtailCreates(cr), PromtailKeys(cr), [2, 1, 0]);
    Widened(PromtailCreates(cr), Elements(PromtailKeys(cr)), Footprint(cr));
  }

  /** The stages up to Promtail, each only after the one before succeeded. */
  const CreatingStages := InstallationStages[..7]

  /** What a stage that succeeded has created. */
  ghost predicate StagePresent(cr: Cr, stage: Stage, s: Store) {
    match stage
    case PrometheusInstallationStage => Present(s, PrometheusInstallationCreates(cr))
    case PrometheusConfigurationStage => Present(s, PrometheusConfigurationCreates(cr)) && TokenLifetimes(cr) in s
    case GrafanaInstallationStage => !cr.Descoped() ==> Present(s, GrafanaInstallationCreates(cr))
    case GrafanaConfigurationStage => !cr.Descoped() ==> Present(s, GrafanaConfigurationCreates(cr))
    case AlertmanagerInstallationStage => Present(s, AlertmanagerCreates(cr))
    case PromtailInstallationStage => !PromtailOff(cr) ==> Present(s, PromtailCreates(cr))
    case _ => true
  }

  /** What has a fixed name but comes with a sync, from another operator, or is an operator group that may have one already. */
  predicate FromElsewhere(cr: Cr, k: Key) {
    || k.kind in {Prometheus, Alertmanager, Grafana, OperatorGroup, Deployment, ClusterLogging, ClusterLogForwarder, Namespace}
    || k in {PrometheusScrapeConfig(cr), PrometheusTlsSecret(cr), AlertmanagerSecret(cr), AlertmanagerTlsSecret(cr), CredentialsSecret(cr)}
    || k in {ResourcesService(cr), ResourcesRoute(cr), LoggingSubscription()}
  }

  /** The finished stages have created all the rest of what cleanup goes by a name for. */
  lemma NamedAreThere(cr: Cr, s: Store, k: Key)
    requires (forall stage :: stage in CreatingStages ==> StagePresent(cr, stage, s)) && Teardown.Fixed(cr, k) && !FromElsewhere(cr, k)
    ensures k in s
  {
    CreatedSomewhere(cr, k);
    ServersThere(cr, s, k);
    if !cr.Descoped() { GrafanaThere(cr, s, k); }
    if !PromtailOff(cr) { PromtailThere(cr, s, k); }
  }

  lemma ServersThere(cr: Cr, s: Store, k: Key)
    requires forall stage :: stage in CreatingStages ==> StagePresent(cr, stage, s)
    ensures k in PrometheusInstallationCreates(cr) + PrometheusConfigurationCreates(cr) + AlertmanagerCreates(cr) ==> k in s
  {
    assert CreatingStages[1] == PrometheusInstallationStage && CreatingStages[2] == PrometheusConfigurationStage;
    assert CreatingStages[5] == AlertmanagerInstallationStage;
    assert StagePresent(cr, PrometheusInstallationStage, s) && StagePresent(cr, PrometheusConfigurationStage, s);
    assert StagePresent(cr, AlertmanagerInstallationStage, s);
    OneOf(s, PrometheusInstallationCreates(cr), k);
    OneOf(s, PrometheusConfigurationCreates(cr), k);
    OneOf(s, AlertmanagerCreates(cr), k);
  }

  lemma GrafanaThere(cr: Cr, s: Store, k: Key)
    requires (forall stage :: stage in CreatingStages ==> StagePresent(cr, stage, s)) && !cr.Descoped()
    ensures k in GrafanaInstallationCreates(cr) + GrafanaConfigurationCreates(cr) ==> k in s
  {
    assert CreatingStages[3] == GrafanaInstallationStage && CreatingStages[4] == GrafanaConfigurationStage;
    assert StagePresent(cr, GrafanaInstallationStage, s) && StagePresent(cr, GrafanaConfigurationStage, s);
    OneOf(s, GrafanaInstallationCreates(cr), k);
    OneOf(s, GrafanaConfigurationCreates(cr), k);
  }

  lemma PromtailThere(cr: Cr, s: Store, k: Key)
    requires (forall stage :: stage in CreatingStages ==> StagePresent(cr, stage, s)) && !PromtailOff(cr)
    ensures k in PromtailCreates(cr) ==> k in s
  {
    assert CreatingStages[6] == PromtailInstallationStage && StagePresent(cr, PromtailInstallationStage, s);
    OneOf(s, PromtailCreates(cr), k);
  }

  lemma OneOf(s: Store, ks: seq<Key>, k: Key)
    ensures Present(s, ks) && k in ks ==> k in s
  {
  }

  lemma CreatedSomewhere(cr: Cr, k: Key)
    requires Teardown.Fixed(cr, k) && !FromElsewhere(cr, k)
    ensures
      || k in PrometheusInstallationCreates(cr) + PrometheusConfigurationCreates(cr) + AlertmanagerCreates(cr)
      || (!cr.Descoped() && k in GrafanaInstallationCreates(cr) + GrafanaConfigurationCreates(cr))
      || (!PromtailOff(cr) && k in PromtailCreates(cr))
  {
  }

  method InstallStage(c: Cluster, cr: Cr, clusterId: bool, stage: Stage, ghost start: Store, ghost n: nat) returns (status: StageStatus)
    requires Contained(Footprint(cr), TokenLifetimes(cr), start, n, c.log, c.store)
    modifies c
    ensures old(c.log) <= c.log && Contained(Footprint(cr), TokenLifetimes(cr), start, n, c.log, c.store)
    ensures status.ResultSuccess? ==> StagePresent(cr, stage, c.store)
    ensures StaysCurrent(old(c.store), c.store)
    ensures c.Reliable() && c.Obliging() && clusterId && Current(cr, old(c.store)) ==> status.ResultSuccess?
    ensures stage == GrafanaInstallationStage ==> KeepsCurrent(cr, old(c.store), c.store)
    ensures stage !in {PrometheusInstallationStage, GrafanaInstallationStage} ==> Keeps(old(c.store), c.store)
  {
    PrometheusInstallationOwned(cr);
    PrometheusConfigurationOwned(cr);
    if !cr.Descoped() { GrafanaInstallationOwned(cr); GrafanaConfigurationOwned(cr); }
    AlertmanagerOwned(cr);
    if !PromtailOff(cr) { PromtailOwned(cr); }
    status := ResultSuccess;
    match stage
    case PrometheusInstallationStage => status := ReconcilePrometheusInstallation(c, cr, Footprint(cr), start, n);
    case PrometheusConfigurationStage => status := ReconcilePrometheusConfiguration(c, cr, clusterId, Footprint(cr), start, n);
    case GrafanaInstallationStage => status := ReconcileGrafanaInstallation(c, cr, Footprint(cr), start, n);
    case GrafanaConfigurationStage => status := ReconcileGrafanaConfiguration(c, cr, Footprint(cr), start, n);
    case AlertmanagerInstallationStage => status := ReconcileAlertmanagerInstallation(c, cr, Footprint(cr), start, n);
    case PromtailInstallationStage => status := ReconcilePromtailInstallation(c, cr, Footprint(cr), start, n);
    case _ =>
  }

  ghost predicate AllPresent(cr: Cr, i: nat, s: Store)
    requires i <= |CreatingStages|
  {
    forall j :: 0 <= j < i ==> StagePresent(cr, CreatingStages[j], s)
  }

  lemma StagePresentStays(cr: Cr, stage: Stage, a: Store, b: Store)
    requires StagePresent(cr, stage, a) && Keeps(a, b)
    ensures StagePresent(cr, stage, b)
  {
  }

  lemma PresentStays(cr: Cr, ks: seq<Key>, a: Store, b: Store)
    requires Present(a, ks) && KeepsCurrent(cr, a, b)
    requires forall i :: 0 <= i < |ks| ==> ks[i].kind != Csv && ks[i] != GrafanaSubscription(cr)
    ensures Present(b, ks)
  {
  }

  lemma NoneIsGrafanas(cr: Cr)
    ensures forall i :: 0 <= i < |PrometheusConfigurationCreates(cr)| ==>
      PrometheusConfigurationCreates(cr)[i].kind != Csv && PrometheusConfigurationCreates(cr)[i] != GrafanaSubscription(cr)
  {
  }

  lemma SubscriptionsDiffer(cr: Cr)
    ensures forall i :: 0 <= i < |PrometheusInstallationCreates(cr)| ==>
      PrometheusInstallationCreates(cr)[i].kind != Csv && PrometheusInstallationCreates(cr)[i] != GrafanaSubscription(cr)
  {
    assert |PrometheusSubscription(cr).name| != |GrafanaSubscription(cr).name|;
  }

  /** What GrafanaInstallation may delete, the stages before it have not created. */
  lemma PrometheusPresentStays(cr: Cr, stage: Stage, a: Store, b: Store)
    requires stage in {PrometheusInstallationStage, PrometheusConfigurationStage}
    requires StagePresent(cr, stage, a) && KeepsCurrent(cr, a, b)
    ensures StagePresent(cr, stage, b)
  {
    if stage == PrometheusInstallationStage {
      SubscriptionsDiffer(cr);
      PresentStays(cr, PrometheusInstallationCreates(cr), a, b);
    } else {
      NoneIsGrafanas(cr);
      PresentStays(cr, PrometheusConfigurationCreates(cr), a, b);
    }
  }

  lemma AllPresentStay(cr: Cr, i: nat, a: Store, b: Store)
    requires i < |CreatingStages| && AllPresent(cr, i, a)
    requires CreatingStages[i] == GrafanaInstallationStage ==> KeepsCurrent(cr, a, b)
    requires CreatingStages[i] !in {PrometheusInstallationStage, GrafanaInstallationStage} ==> Keeps(a, b)
    ensures AllPresent(cr, i, b)
  {
    forall j | 0 <= j < i ensures StagePresent(cr, CreatingStages[j], b) {
      assert StagePresent(cr, CreatingStages[j], a);
      if CreatingStages[i] == GrafanaInstallationStage {
        if j > 0 { PrometheusPresentStays(cr, CreatingStages[j], a, b); }
      } else if CreatingStages[i] != PrometheusInstallationStage {
        StagePresentStays(cr, CreatingStages[j], a, b);
      }
    }
  }

  /**
   The creating stages in order, up to the first that does not succeed. From a fresh cluster one pass is
   enough, if no call fails, the operators' deployments are ready and no ingress refuses a route.
   */
  method InstallPass(c: Cluster, cr: Cr, clusterId: bool, ghost start: Store, ghost n: nat) returns (finished: bool)
    requires Contained(Footprint(cr), TokenLifetimes(cr), start, n, c.log, c.store)
    modifies c
    ensures old(c.log) <= c.log && Contained(Footprint(cr), TokenLifetimes(cr), start, n, c.log, c.store)
    ensures finished ==> AllPresent(cr, |CreatingStages|, c.store)
    ensures StaysCurrent(old(c.store), c.store)
    ensures c.Reliable() && c.Obliging() && clusterId && Current(cr, old(c.store)) ==> finished
  {
    finished := true;
    for i := 0 to |CreatingStages|
      invariant finished && old(c.log) <= c.log && Contained(Footprint(cr), TokenLifetimes(cr), start, n, c.log, c.store)
      invariant AllPresent(cr, i, c.store)
      invariant StaysCurrent(old(c.store), c.store)
    {
      var status := NextStage(c, cr, clusterId, i, start, n);
      finished := status == ResultSuccess;
      if !finished { break; }
    }
  }

  method NextStage(c: Cluster, cr: Cr, clusterId: bool, i: nat, ghost start: Store, ghost n: nat) returns (status: StageStatus)
    requires i < |CreatingStages| && AllPresent(cr, i, c.store)
    requires Contained(Footprint(cr), TokenLifetimes(cr), start, n, c.log, c.store)
    modifies c
    ensures old(c.log) <= c.log && Contained(Footprint(cr), TokenLifetimes(cr), start, n, c.log, c.store)
    ensures status.ResultSuccess? ==> AllPresent(cr, i + 1, c.store)
    ensures StaysCurrent(old(c.store), c.store)
    ensures c.Reliable() && c.Obliging() && clusterId && Current(cr, old(c.store)) ==> status.ResultSuccess?
  {
    ghost var s := c.store;
    status := InstallStage(c, cr, clusterId, CreatingStages[i], start, n);
    AllPresentStay(cr, i, s, c.store);
    if status == ResultSuccess { OneMorePresent(cr, i, c.store); }
  }

  lemma OneMorePresent(cr: Cr, i: nat, s: Store)
    requires i < |CreatingStages| && AllPresent(cr, i, s) && StagePresent(cr, CreatingStages[i], s)
    ensures AllPresent(cr, i + 1, s)
  {
    forall j | 0 <= j < i + 1 ensures StagePresent(cr, CreatingStages[j], s) {
      if j == i { assert CreatingStages[j] == CreatingStages[i]; }
    }
  }

  // ---------- The round trip ----------

  lemma SameStackSameFootprint(a: Cr, b: Cr)
    requires SameStack(a, b)
    ensures Footprint(a) == Footprint(b) && TokenLifetimes(a) == TokenLifetimes(b)
  {
    assert PrometheusFootprint(a) == PrometheusFootprint(b);
    assert GrafanaFootprint(a) == GrafanaFootprint(b);
    assert AlertmanagerFootprint(a) == AlertmanagerFootprint(b);
    assert PromtailFootprint(a) == PromtailFootprint(b);
  }

  lemma ElementsGone(s: Store, ks: seq<Key>)
    requires Absent(s, ks)
    ensures Elements(ks) !! s.Keys
  {
  }

  lemma PrometheusGone(cr: Cr, sole: set<Component>, now: Snapshot)
    requires CleanupPass.AllAchieved(cr, sole, |CleanupStages|, now)
    ensures PrometheusFootprint(cr) !! now.store.Keys
  {
    CleanupPass.StageAchieved(cr, sole, 0, now);
    CleanupPass.StageAchieved(cr, sole, 2, now);
    ElementsGone(now.store, PrometheusFrontKeys(cr));
    ElementsGone(now.store, PrometheusBackKeys(cr));
    ElementsGone(now.store, PrometheusInstallationKeys(cr));
  }

  lemma GrafanaGone(cr: Cr, sole: set<Component>, now: Snapshot)
    requires CleanupPass.AllAchieved(cr, sole, |CleanupStages|, now)
    ensures GrafanaFootprint(cr) !! now.store.Keys
  {
    CleanupPass.StageAchieved(cr, sole, 1, now);
    CleanupPass.StageAchieved(cr, sole, 3, now);
    if !cr.Descoped() {
      ElementsGone(now.store, GrafanaBackKeys(cr));
      ElementsGone(now.store, GrafanaInstallationKeys(cr));
      assert [GrafanaCr(cr)][0] !in now.store;
    }
  }

  lemma AlertmanagerGone(cr: Cr, sole: set<Component>, now: Snapshot)
    requires CleanupPass.AllAchieved(cr, sole, |CleanupStages|, now)
    ensures AlertmanagerFootprint(cr) !! now.store.Keys
  {
    CleanupPass.StageAchieved(cr, sole, 4, now);
    ElementsGone(now.store, AlertmanagerBackKeys(cr));
    assert [AlertmanagerCr(cr)][0] !in now.store;
  }

  lemma PromtailGone(cr: Cr, sole: set<Component>, now: Snapshot)
    requires CleanupPass.AllAchieved(cr, sole, |CleanupStages|, now)
    ensures PromtailFootprint(cr) !! now.store.Keys
  {
    CleanupPass.StageAchieved(cr, sole, 5, now);
    if !PromtailOff(cr) { ElementsGone(now.store, PromtailKeys(cr)); }
  }

  lemma LifetimesGone(cr: Cr, sole: set<Component>, now: Snapshot)
    requires CleanupPass.AllAchieved(cr, sole, |CleanupStages|, now)
    ensures TokenLifetimes(cr) in now.store ==> !Matches(now.store[TokenLifetimes(cr)], ManagedBy)
  {
    CleanupPass.StageAchieved(cr, sole, 7, now);
    assert TokenLifetimes(cr) !in Selected(now.store, ConfigMap, cr.ns, ManagedBy);
  }

  /** When every cleanup stage has achieved its goal, nothing of the footprint is left. */
  lemma FootprintGone(cr: Cr, sole: set<Component>, now: Snapshot)
    requires CleanupPass.AllAchieved(cr, sole, |CleanupStages|, now)
    ensures Footprint(cr) !! now.store.Keys
    ensures TokenLifetimes(cr) in now.store ==> !Matches(now.store[TokenLifetimes(cr)], ManagedBy)
  {
    PrometheusGone(cr, sole, now);
    GrafanaGone(cr, sole, now);
    AlertmanagerGone(cr, sole, now);
    PromtailGone(cr, sole, now);
    LifetimesGone(cr, sole, now);
  }

  method InstallPasses(c: Cluster, crs: seq<Cr>, clusterId: bool, ghost start: Store, ghost n: nat) returns (installed: bool)
    requires crs != [] && ValidHistory(crs) && c.store == start && |c.log| == n
    modifies c
    ensures old(c.log) <= c.log && Contained(Footprint(crs[0]), TokenLifetimes(crs[0]), start, n, c.log, c.store)
    ensures installed ==> AllPresent(crs[|crs| - 1], |CreatingStages|, c.store)
    ensures c.Reliable() && c.Obliging() && clusterId && Current(crs[0], start) ==> installed
  {
    for i := 0 to |crs| - 1
      invariant old(c.log) <= c.log && Contained(Footprint(crs[0]), TokenLifetimes(crs[0]), start, n, c.log, c.store)
      invariant StaysCurrent(start, c.store)
    {
      var _ := InstallUnder(c, crs[0], crs, i, clusterId, start, n);
    }
    installed := InstallUnder(c, crs[0], crs, |crs| - 1, clusterId, start, n);
  }

  /** A pass under a later version of the resource leaves within the footprint of the first. */
  method InstallUnder(c: Cluster, first: Cr, crs: seq<Cr>, i: nat, clusterId: bool, ghost start: Store, ghost n: nat) returns (installed: bool)
    requires i < |crs| && first == crs[0] && ValidHistory(crs)
    requires Contained(Footprint(first), TokenLifetimes(first), start, n, c.log, c.store)
    modifies c
    ensures old(c.log) <= c.log && Contained(Footprint(first), TokenLifetimes(first), start, n, c.log, c.store)
    ensures installed ==> AllPresent(crs[i], |CreatingStages|, c.store)
    ensures StaysCurrent(old(c.store), c.store)
    ensures c.Reliable() && c.Obliging() && clusterId && Current(first, old(c.store)) ==> installed
  {
    HistoryKeepsStack(crs, i);
    SameStackSameFootprint(first, crs[i]);
    installed := InstallPass(c, crs[i], clusterId, start, n);
  }

  /**
   Any number of install passes over any history of the custom resource that the webhook accepts and that
   keeps the mode, and then any number of cleanup passes under the last version, all with any failures: once
   a cleanup pass finishes, the cluster has nothing it did not have before. `installed` tells whether the last
   install pass finished, and `full` is what it left: the store in which cleanup made its first call, number `at`.
   */
  method Lifecycle(c: Cluster, crs: seq<Cr>, clusterId: bool, attempts: nat) returns (installed: bool, finished: bool, ghost full: Store, ghost at: nat)
    requires crs != [] && ValidHistory(crs)
    modifies c
    ensures old(c.log) <= c.log && |old(c.log)| <= at && CleanupPass.HandedOver(c.log, at, full, c.store, attempts)
    ensures installed ==> AllPresent(crs[|crs| - 1], |CreatingStages|, full)
    ensures c.Reliable() && c.Obliging() && clusterId && Current(crs[0], old(c.store)) ==> installed
    ensures finished ==> c.store.Keys <= old(c.store).Keys && Footprint(crs[|crs| - 1]) !! c.store.Keys
  {
    ghost var start, n := c.store, |c.log|;
    installed := InstallPasses(c, crs, clusterId, start, n);
    full, at := c.store, |c.log|;
    ghost var before := c.log;
    var last := crs[|crs| - 1];
    HistoryKeepsStack(crs, |crs| - 1);
    SameStackSameFootprint(crs[0], last);
    finished := false;
    for i := 0 to attempts
      invariant !finished && Within(Footprint(last), TokenLifetimes(last), start, c.store)
      invariant before <= c.log && CleanupPass.HandedOver(c.log, at, full, c.store, i)
    {
      finished := Uninstall(c, last, start);
      if finished { break; }
    }
  }

  method Uninstall(c: Cluster, cr: Cr, ghost start: Store) returns (finished: bool)
    requires Within(Footprint(cr), TokenLifetimes(cr), start, c.store)
    modifies c
    ensures Within(Footprint(cr), TokenLifetimes(cr), start, c.store)
    ensures old(c.log) <= c.log && |old(c.log)| < |c.log| && c.log[|old(c.log)|].pre.store == old(c.store)
    ensures finished ==> c.store.Keys <= start.Keys && Footprint(cr) !! c.store.Keys
  {
    ghost var installed, m := c.store, |c.log|;
    var done, _, _ := CleanupPass.RunStages(c, cr);
    finished := done;
    Teardown.TornShrinks(cr, Teardown.Sole(cr, installed), Teardown.From(cr, installed), c.log[m..], c.store);
    if finished {
      FootprintGone(cr, Teardown.Sole(cr, installed), c.Now());
      NothingLeft(cr, start, installed, c.store);
    }
  }

  lemma NothingLeft(cr: Cr, start: Store, installed: Store, now: Store)
    requires Within(Footprint(cr), TokenLifetimes(cr), start, installed) && Submap(now, installed)
    requires Footprint(cr) !! now.Keys
    requires TokenLifetimes(cr) in now ==> !Matches(now[TokenLifetimes(cr)], ManagedBy)
    ensures now.Keys <= start.Keys
  {
    forall k | k in now ensures k in start {
      assert k in installed && installed[k] == now[k];
    }
  }
}
