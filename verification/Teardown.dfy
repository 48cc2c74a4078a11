/**
 The Cleanup methods of the stages and the pass that runs them in order.

 Every method keeps Torn, which speaks of every single API call since the pass began, so what it says
 holds wherever the pass stops.
 */
module Teardown {
  import opened Kube
  import opened Observability
  import opened Stack
  import TokenRefreshers

  // ---------- Components that are down for good ----------

  /** The custom resource is deleted and the workload no longer runs. */
  ghost predicate Down(cr: Cr, s: Snapshot, x: Component) {
    Resource(cr, x) !in s.store && Workload(cr, x) !in s.workloads
  }

  /** Those of these components that are in `sole` are down. */
  ghost predicate AllDown(cr: Cr, sole: set<Component>, s: Snapshot, xs: set<Component>) {
    forall x :: x in xs && x in sole ==> Down(cr, s, x)
  }

  /**
   The components whose removal the wait can see and no other custom resource in the store can undo; Grafana
   is not touched in descoped mode.
   */
  function Sole(cr: Cr, s: Store): set<Component> {
    set x: Component | Awaited(cr, x) == Workload(cr, x) && (x.GrafanaServer? ==> !cr.Descoped()) && OnlySpawner(cr, s, x)
  }

  predicate OnlySpawner(cr: Cr, s: Store, x: Component) {
    forall k :: k in s && Spawns(k, Workload(cr, x)) ==> k == Resource(cr, x)
  }

  /**
   Prometheus and Alertmanager qualify exactly when the operator works in the resource's own namespace, where
   the wait looks; Grafana exactly when it is the only one in the namespace.
   */
  lemma SoleIff(cr: Cr, s: Store)
    ensures PrometheusServer in Sole(cr, s) <==> cr.OperatorNs() == cr.ns
    ensures AlertmanagerServer in Sole(cr, s) <==> cr.OperatorNs() == cr.ns
    ensures GrafanaServer in Sole(cr, s) <==>
      !cr.Descoped() && forall k :: k in s && k.kind == Grafana && k.ns == cr.ns ==> k == GrafanaCr(cr)
  {
    var p, a := "prometheus-", "alertmanager-";
    forall k: Key
      ensures Spawns(k, Workload(cr, PrometheusServer)) <==> k == PrometheusCr(cr)
      ensures Spawns(k, Workload(cr, AlertmanagerServer)) <==> k == AlertmanagerCr(cr)
      ensures Spawns(k, Workload(cr, GrafanaServer)) <==> k.kind == Grafana && k.ns == cr.ns
    {
      assert (p + k.name)[|p|..] == k.name && (p + cr.Prometheus())[|p|..] == cr.Prometheus();
      assert (a + k.name)[|a|..] == k.name && (a + cr.Alertmanager())[|a|..] == cr.Alertmanager();
      assert (p + k.name)[0] == 'p' && (a + k.name)[0] == 'a';
      assert (p + cr.Prometheus())[0] == 'p' && (a + cr.Alertmanager())[0] == 'a';
    }
  }

  lemma SoleGrows(cr: Cr, a: Store, b: Store)
    requires Submap(b, a)
    ensures Sole(cr, a) <= Sole(cr, b)
  {
  }

  /** From `a` to `b` objects only went away, and what was down stayed down. */
  ghost predicate Waned(cr: Cr, sole: set<Component>, a: Snapshot, b: Snapshot) {
    && Submap(b.store, a.store)
    && (forall x :: x in sole && Down(cr, a, x) ==> Down(cr, b, x))
  }

  lemma DriftWanes(cr: Cr, sole: set<Component>, a: Snapshot, b: Snapshot)
    requires Drift(a, b) && Submap(b.store, a.store) && sole <= Sole(cr, a.store)
    ensures Waned(cr, sole, a, b)
  {
    forall x | x in sole && Down(cr, a, x) ensures Down(cr, b, x) {
      assert OnlySpawner(cr, a.store, x);
    }
  }

  // ---------- What every API call of a teardown keeps to ----------

  const Operated := {PrometheusServer, GrafanaServer}
  const Everything := {PrometheusServer, AlertmanagerServer, GrafanaServer}

  /** The components that have to be down before an object of this kind may be deleted. */
  function Needs(kind: Kind): (r: set<Component>)
    ensures r <= Everything
  {
    match kind
    case Csv => Everything
    case PrometheusRule => Everything
    case PodMonitor => Everything
    case GrafanaDashboard => Everything
    case DaemonSet => Everything
    case NetworkPolicy => Everything
    case ConfigMap => Everything
    case ClusterLogging => Everything
    case ClusterLogForwarder => Everything
    case Subscription => Operated
    case CatalogSource => Operated
    case OperatorGroup => Operated
    case Deployment => Operated
    case Namespace => Operated
    case ClusterRoleBinding => {PrometheusServer}
    case ClusterRole => {PrometheusServer}
    case ServiceAccount => {PrometheusServer}
    case Service => {PrometheusServer}
    case _ => {}
  }

  /** What cleanup goes by: the fixed names of the stack, as far as the stages that own them run at all. */
  predicate Fixed(cr: Cr, k: Key) {
    var ns, prometheus, alertmanager := cr.OperatorNs(), cr.Prometheus(), cr.Alertmanager();
    match k.kind
    case Prometheus => k.ns == ns && k.name == prometheus
    case Alertmanager => k.ns == ns && k.name == alertmanager
    case Grafana => k.ns == cr.ns && k.name == cr.Grafana() && !cr.Descoped()
    case GrafanaDataSource => k.ns == cr.ns && k.name == "on-cluster-prometheus" && !cr.Descoped()
    case Service => (k.ns == ns && k.name in {prometheus, alertmanager}) || (k.ns == cr.ns && k.name == "obs-resources")
    case Route => (k.ns == ns && k.name in {prometheus, alertmanager}) || (k.ns == cr.ns && k.name == "observability-resources-route")
    case ServiceAccount => (k.ns == ns && k.name in {prometheus, alertmanager}) || (k.ns == cr.ns && k.name == "obs-promtail" && !PromtailOff(cr))
    case ClusterRole =>
      k.ns == "" && (k.name in {prometheus, alertmanager}
        || (k.name == "grafana-oauth-proxy-cluster-role" && !cr.Descoped()) || (k.name == "obs-promtail" && !PromtailOff(cr)))
    case ClusterRoleBinding =>
      k.ns == "" && (k.name in {prometheus, alertmanager}
        || (k.name == "cluster-grafana-oauth-proxy-cluster-role-binding" && !cr.Descoped()) || (k.name == "obs-promtail" && !PromtailOff(cr)))
    case Secret =>
      || (k.ns == ns && k.name in {"additional-scrape-configs", "prometheus-proxy", "prometheus-k8s-tls"})
      || (k.ns == ns && k.name in {"alertmanager-" + alertmanager, "alertmanager-proxy", "alertmanager-k8s-tls"})
      || (k.ns == cr.ns && (k.name == "observatorium-credentials" || (k.name == "grafana-k8s-proxy" && !cr.Descoped())))
    case Subscription =>
      || (k.ns == ns && k.name == "prometheus-subscription")
      || (!cr.Descoped() && ((k.ns == cr.ns && k.name == "grafana-subscription") || k == LoggingSubscription()))
    case OperatorGroup => k.name == "observability-operatorgroup" && (k.ns == ns || (k.ns == cr.ns && !cr.Descoped()))
    case CatalogSource =>
      || (k.ns == ns && k.name == "prometheus-catalogsource")
      || (k.ns == cr.ns && k.name == "grafana-operator-catalog-source" && !cr.Descoped())
    case Deployment => k.ns == cr.ns && (k.name == "obs-resources" || (k.name == "grafana-operator" && !cr.Descoped()))
    case ClusterLogging => k == LoggingInstance() && !cr.Descoped()
    case ClusterLogForwarder => k == LogForwarderInstance() && !cr.Descoped()
    case Namespace => k.ns == "" && k.name == ns && cr.Descoped()
    case _ => false
  }

  /** The labels, and these only in the resource's own namespace. */
  predicate Swept(cr: Cr, k: Key, o: Obj) {
    k.ns == cr.ns && match k.kind
      case Secret => Matches(o, ManagedBy)
      case ConfigMap => Matches(o, ManagedBy)
      case DaemonSet => Matches(o, ManagedBy)
      case PrometheusRule => Matches(o, ManagedBy) && !cr.ExternalSyncDisabled()
      case PodMonitor => Matches(o, ManagedBy) && !cr.ExternalSyncDisabled()
      case GrafanaDashboard => Matches(o, ManagedBy) && !cr.ExternalSyncDisabled() && !cr.Descoped()
      case Deployment => Matches(o, TokenRefreshers.ProxyLabels)
      case NetworkPolicy => Matches(o, TokenRefreshers.ProxyLabels)
      case _ => false
  }

  /** The names by which the versions of the two operators are known. */
  predicate OperatorVersion(name: string) {
    (|name| >= 17 && name[..17] == "grafana-operator.") || (|name| >= 19 && name[..19] == "prometheusoperator.")
  }

  lemma OperatorCsvIff(name: string)
    ensures OperatorCsv(name) <==> OperatorVersion(name)
  {
    assert |"grafana-operator."| == 17 && |"prometheusoperator."| == 19;
  }

  /** And two kinds of versions: those of the two operators in the namespace, and the one of logging that the operator installed. */
  ghost predicate OwnVersion(cr: Cr, start: Store, k: Key) {
    k.kind == Csv &&
    ((k.ns == cr.ns && OperatorVersion(k.name))
     || (k.ns == LoggingNs && !cr.Descoped() && LoggingInstalled(start, k.name)))
  }

  ghost predicate LoggingInstalled(s: Store, name: string) {
    exists sub :: LoggingManaged(s, sub) && InstalledCsv(s[sub]) == name
  }

  lemma InstalledBefore(a: Store, b: Store, name: string)
    requires Submap(b, a) && LoggingInstalled(b, name)
    ensures LoggingInstalled(a, name)
  {
    var sub :| LoggingManaged(b, sub) && InstalledCsv(b[sub]) == name;
    assert LoggingManaged(a, sub);
  }

  ghost predicate Erasable(cr: Cr, start: Store, k: Key, o: Obj) {
    Fixed(cr, k) || Swept(cr, k, o) || OwnVersion(cr, start, k)
  }

  /** Where a teardown begins, and what it may delete. */
  datatype Origin = Origin(store: Store, scope: (Key, Obj) -> bool)

  ghost function From(cr: Cr, s: Store): Origin {
    Origin(s, (k: Key, o: Obj) => Erasable(cr, s, k, o))
  }

  /** Such an object may be deleted, and a labelled one of this kind. */
  lemma MayErase(cr: Cr, start: Origin, k: Key, o: Obj)
    requires start == From(cr, start.store) && (Fixed(cr, k) || Swept(cr, k, o) || OwnVersion(cr, start.store, k))
    ensures start.scope(k, o)
  {
  }

  lemma ErasableGrows(cr: Cr, a: Store, b: Store, k: Key, o: Obj)
    requires Submap(b, a) && Erasable(cr, b, k, o)
    ensures Erasable(cr, a, k, o)
  {
    if LoggingInstalled(b, k.name) { InstalledBefore(a, b, k.name); }
  }

  /** One call: never a write, a deletion only in scope and once what it needs is down, a policy only once no proxy needs it. */
  ghost predicate Proper(cr: Cr, sole: set<Component>, start: Origin, step: Step) {
    match step.op
    case Read => step.post.store == step.pre.store
    case Put(_) => false
    case Del(k) =>
      && (step.post.store == step.pre.store || step.post.store == step.pre.store - {k})
      && AllDown(cr, sole, step.pre, Needs(k.kind))
      && (k in step.pre.store ==> start.scope(k, step.pre.store[k]))
      && (k.kind == NetworkPolicy ==> TokenRefreshers.Refreshers(step.pre.store, k.ns) == {})
  }

  /** Proper calls, one after the other, lead from the store at the start to the store `now`. */
  ghost predicate Torn(cr: Cr, sole: set<Component>, start: Origin, steps: seq<Step>, now: Store) {
    && sole <= Sole(cr, now)
    && if steps == [] then now == start.store
       else
         var last := steps[|steps| - 1];
         Proper(cr, sole, start, last) && last.post.store == now && Torn(cr, sole, start, steps[..|steps| - 1], last.pre.store)
  }

  lemma TornOn(cr: Cr, sole: set<Component>, start: Origin, n: nat, log: seq<Step>, step: Step)
    requires n <= |log| && Torn(cr, sole, start, log[n..], step.pre.store) && Proper(cr, sole, start, step)
    ensures Torn(cr, sole, start, (log + [step])[n..], step.post.store)
  {
    SoleGrows(cr, step.pre.store, step.post.store);
    assert (log + [step])[n..][..|log| - n] == log[n..];
  }

  lemma {:induction false} TornShrinks(cr: Cr, sole: set<Component>, start: Origin, steps: seq<Step>, now: Store)
    requires Torn(cr, sole, start, steps, now)
    ensures Submap(now, start.store)
  {
    if steps != [] {
      TornShrinks(cr, sole, start, steps[..|steps| - 1], steps[|steps| - 1].pre.store);
    }
  }

  /** What cleanup does not go by outlasts it, and every call of it. */
  lemma {:induction false} TornSpares(cr: Cr, sole: set<Component>, start: Origin, steps: seq<Step>, now: Store, k: Key)
    requires Torn(cr, sole, start, steps, now) && k in start.store && !start.scope(k, start.store[k])
    ensures k in now && now[k] == start.store[k]
    ensures forall i :: 0 <= i < |steps| ==> k in steps[i].post.store && steps[i].post.store[k] == start.store[k]
  {
    if steps != [] {
      var init := steps[..|steps| - 1];
      TornSpares(cr, sole, start, init, steps[|steps| - 1].pre.store, k);
      forall i | 0 <= i < |steps| ensures k in steps[i].post.store && steps[i].post.store[k] == start.store[k] {
        if i < |init| { assert steps[i] == init[i]; }
      }
    }
  }

  /** A teardown begins where it says. */
  lemma {:induction false} TornBegins(cr: Cr, sole: set<Component>, start: Origin, steps: seq<Step>, now: Store)
    requires Torn(cr, sole, start, steps, now) && steps != []
    ensures steps[0].pre.store == start.store
  {
    var init := steps[..|steps| - 1];
    if init != [] { TornBegins(cr, sole, start, init, steps[|steps| - 1].pre.store); }
  }

  /** Every call of a teardown is proper: the ordering holds over the whole run. */
  lemma {:induction false} TornIsProper(cr: Cr, sole: set<Component>, start: Origin, steps: seq<Step>, now: Store, i: nat)
    requires Torn(cr, sole, start, steps, now) && i < |steps|
    ensures Proper(cr, sole, start, steps[i])
  {
    if i < |steps| - 1 {
      TornIsProper(cr, sole, start, steps[..|steps| - 1], steps[|steps| - 1].pre.store, i);
    }
  }

  lemma ProperKeepsCover(cr: Cr, sole: set<Component>, start: Origin, step: Step)
    requires Proper(cr, sole, start, step) && TokenRefreshers.Covered(step.pre.store)
    ensures TokenRefreshers.Covered(step.post.store)
  {
    forall d | d in step.post.store && d.kind == Deployment && Matches(step.post.store[d], TokenRefreshers.ProxyLabels)
      ensures
        var p := TokenRefreshers.PolicyKey(d.ns, d.name);
        p in step.post.store && TokenRefreshers.Guards(step.post.store[p], d.name)
    {
      assert d.name in TokenRefreshers.Refreshers(step.pre.store, d.ns);
    }
  }

  /** Coverage of the authentication proxies survives every call of every teardown. */
  lemma {:induction false} TornKeepsCover(cr: Cr, sole: set<Component>, start: Origin, steps: seq<Step>, now: Store)
    requires Torn(cr, sole, start, steps, now) && TokenRefreshers.Covered(start.store)
    ensures TokenRefreshers.Covered(now) && TokenRefreshers.CoveredThroughout(steps, 0)
  {
    if steps != [] {
      var last := steps[|steps| - 1];
      TornKeepsCover(cr, sole, start, steps[..|steps| - 1], last.pre.store);
      ProperKeepsCover(cr, sole, start, last);
      forall i | 0 <= i < |steps| ensures TokenRefreshers.Covered(steps[i].post.store) {
        if i < |steps| - 1 { assert steps[i] == steps[..|steps| - 1][i]; }
      }
    }
  }

  /** What each piece of a teardown, begun at `start` when the log had `n` entries, does to the cluster. */
  ghost predicate Progress(cr: Cr, sole: set<Component>, start: Origin, n: nat, before: seq<Step>, was: Snapshot, log: seq<Step>, now: Snapshot) {
    && n <= |before| && before <= log
    && Torn(cr, sole, start, log[n..], now.store)
    && Waned(cr, sole, was, now)
  }

  lemma ProgressOn(cr: Cr, sole: set<Component>, start: Origin, n: nat, before: seq<Step>, was: Snapshot, upTo: seq<Step>, mid: Snapshot, log: seq<Step>, now: Snapshot)
    requires Progress(cr, sole, start, n, before, was, upTo, mid) && Progress(cr, sole, start, n, upTo, mid, log, now)
    ensures Progress(cr, sole, start, n, before, was, log, now)
  {
  }

  ghost predicate Started(cr: Cr, sole: set<Component>, start: Origin, n: nat, log: seq<Step>, now: Store) {
    n <= |log| && Torn(cr, sole, start, log[n..], now)
  }

  /** The same for a teardown that may delete what is the stack's. */
  ghost predicate Launched(cr: Cr, sole: set<Component>, start: Origin, n: nat, log: seq<Step>, now: Store) {
    Started(cr, sole, start, n, log, now) && start == From(cr, start.store)
  }

  method Erase(c: Cluster, cr: Cr, k: Key, ghost sole: set<Component>, ghost start: Origin, ghost n: nat) returns (ack: Ack)
    requires Started(cr, sole, start, n, c.log, c.store)
    requires AllDown(cr, sole, c.Now(), Needs(k.kind)) && (k in c.store ==> start.scope(k, c.store[k]))
    requires k.kind == NetworkPolicy ==> TokenRefreshers.Refreshers(c.store, k.ns) == {}
    modifies c
    ensures Progress(cr, sole, start, n, old(c.log), old(c.Now()), c.log, c.Now())
    ensures !ack.Failed? ==> k !in c.store
    ensures c.store == old(c.store) || c.store == old(c.store) - {k}
    ensures k.kind != Csv || k.ns != cr.ns ==> OperatorCsvs(c.store, cr.ns) == OperatorCsvs(old(c.store), cr.ns)
    ensures c.Reliable() ==> ack == if k in old(c.store) then Done else Missing
    ensures c.Calm(old(c.workloads), c.workloads)
    ensures c.workloads == old(c.Moved())
    ensures c.log == old(c.log) + [Step(Snapshot(old(c.store), c.workloads), Del(k), c.Now())]
  {
    ack := c.Delete(k);
    DriftWanes(cr, sole, old(c.Now()), c.Now());
    DriftWanes(cr, sole, old(c.Now()), Snapshot(old(c.store), c.workloads));
    TornOn(cr, sole, start, n, old(c.log), Step(Snapshot(old(c.store), c.workloads), Del(k), c.Now()));
  }

  /** List the workloads of the resource's own namespace and look for the component's. */
  method WaitForRemoval(c: Cluster, cr: Cr, x: Component, ghost sole: set<Component>, ghost start: Origin, ghost n: nat) returns (status: StageStatus)
    requires Started(cr, sole, start, n, c.log, c.store)
    modifies c
    ensures Progress(cr, sole, start, n, old(c.log), old(c.Now()), c.log, c.Now())
    ensures c.store == old(c.store)
    ensures status.ResultSuccess? ==> Awaited(cr, x) !in c.workloads
    ensures c.Calm(old(c.workloads), c.workloads)
    ensures c.workloads == old(c.Moved())
    ensures c.Reliable() && Awaited(cr, x) !in c.workloads ==> status.ResultSuccess?
  {
    var ok, found := c.SeesWorkload(Awaited(cr, x));
    DriftWanes(cr, sole, old(c.Now()), c.Now());
    TornOn(cr, sole, start, n, old(c.log), Step(c.Now(), Read, c.Now()));
    status := if !ok then ResultFailed else if found then ResultInProgress else ResultSuccess;
  }

  // ---------- What a stage's Cleanup achieves ----------

  function InstalledCsv(o: Obj): string {
    if "installedCSV" in o.data then o.data["installedCSV"] else ""
  }

  ghost predicate LoggingManaged(s: Store, k: Key) {
    k in s && k.kind == Subscription && k.ns == LoggingNs && Matches(s[k], LoggingLabel)
  }

  /** No labelled object of this kind is left in the namespace. */
  ghost predicate NoneLeft(s: Store, kind: Kind, ns: string, sel: Labels) {
    Selected(s, kind, ns, sel) == map[]
  }

  lemma NoneLeftStays(a: Store, b: Store, kind: Kind, ns: string, sel: Labels)
    requires NoneLeft(a, kind, ns, sel) && Submap(b, a)
    ensures NoneLeft(b, kind, ns, sel)
  {
    assert Selected(b, kind, ns, sel).Keys <= Selected(a, kind, ns, sel).Keys;
  }

  ghost predicate ManagedGone(cr: Cr, s: Store) {
    NoneLeft(s, Secret, cr.ns, ManagedBy) && NoneLeft(s, ConfigMap, cr.ns, ManagedBy)
  }

  ghost predicate MonitoringGone(cr: Cr, s: Store) {
    && (!cr.Descoped() ==> NoneLeft(s, GrafanaDashboard, cr.ns, ManagedBy))
    && NoneLeft(s, PrometheusRule, cr.ns, ManagedBy) && NoneLeft(s, PodMonitor, cr.ns, ManagedBy)
  }

  ghost predicate ProxiesGone(cr: Cr, s: Store) {
    && NoneLeft(s, Deployment, cr.ns, TokenRefreshers.ProxyLabels)
    && Absent(s, ResourcesKeys(cr))
    && NoneLeft(s, NetworkPolicy, cr.ns, TokenRefreshers.ProxyLabels)
  }

  ghost predicate SyncedGone(cr: Cr, s: Store) {
    && ManagedGone(cr, s)
    && (!cr.ExternalSyncDisabled() ==> MonitoringGone(cr, s))
    && NoneLeft(s, DaemonSet, cr.ns, ManagedBy)
  }

  ghost predicate ConfigurationGone(cr: Cr, s: Store) {
    SyncedGone(cr, s) && ProxiesGone(cr, s)
  }

  ghost predicate Achieved(cr: Cr, sole: set<Component>, stage: Stage, now: Snapshot) {
    match stage
    case PrometheusConfigurationStage =>
      && Absent(now.store, PrometheusFrontKeys(cr)) && Absent(now.store, PrometheusBackKeys(cr))
      && (PrometheusServer in sole ==> Down(cr, now, PrometheusServer))
    case GrafanaConfigurationStage =>
      && (!cr.Descoped() ==> Absent(now.store, [GrafanaCr(cr)]) && Absent(now.store, GrafanaBackKeys(cr)))
      && (GrafanaServer in sole ==> Down(cr, now, GrafanaServer))
    case PrometheusInstallationStage => Absent(now.store, PrometheusInstallationKeys(cr))
    case GrafanaInstallationStage =>
      !cr.Descoped() ==> Absent(now.store, GrafanaInstallationKeys(cr)) && GrafanaOperator(cr) !in now.store
    case AlertmanagerInstallationStage =>
      && Absent(now.store, [AlertmanagerCr(cr)]) && Absent(now.store, AlertmanagerBackKeys(cr))
      && (AlertmanagerServer in sole ==> Down(cr, now, AlertmanagerServer))
    case PromtailInstallationStage => !PromtailOff(cr) ==> Absent(now.store, PromtailKeys(cr))
    case LoggingInstallationStage => !cr.Descoped() ==> !LoggingManaged(now.store, LoggingSubscription())
    case ConfigurationStage => ConfigurationGone(cr, now.store)
    case TokenRequestStage => CredentialsSecret(cr) !in now.store
    case CsvStage => OperatorCsvs(now.store, cr.ns) == {}
    case MigrationStage => true
  }

  lemma AbsentStays(a: Store, b: Store, ks: seq<Key>)
    requires Absent(a, ks) && Submap(b, a)
    ensures Absent(b, ks)
  {
  }

  lemma ConfigurationStaysGone(cr: Cr, a: Store, b: Store)
    requires ConfigurationGone(cr, a) && Submap(b, a)
    ensures ConfigurationGone(cr, b)
  {
    SyncedStaysGone(cr, a, b);
    ProxiesStayGone(cr, a, b);
  }

  /** What one stage achieved, the later ones do not undo. */
  lemma AchievedStays(cr: Cr, sole: set<Component>, stage: Stage, a: Snapshot, b: Snapshot)
    requires Achieved(cr, sole, stage, a) && Waned(cr, sole, a, b)
    ensures Achieved(cr, sole, stage, b)
  {
    match stage
    case ConfigurationStage => ConfigurationStaysGone(cr, a.store, b.store);
    case CsvStage => assert OperatorCsvs(b.store, cr.ns) <= OperatorCsvs(a.store, cr.ns);
    case _ =>
  }

  /** No call fails, no wait has anything to wait for and no workload comes back. */
  ghost predicate Smooth(c: Cluster, cr: Cr, workloads: set<Key>) {
    c.Reliable() && c.Quiet() && forall x :: Awaited(cr, x) !in workloads
  }

  // ---------- Runs of deletions ----------

  /** Once `down` is down, these may be deleted whatever they are like; none of them is a policy or a ClusterServiceVersion. */
  ghost predicate Ripe(start: Origin, ks: seq<Key>, down: set<Component>) {
    forall i :: 0 <= i < |ks| ==> Needs(ks[i].kind) <= down && ks[i].kind !in {NetworkPolicy, Csv} && Free(start, ks[i])
  }

  ghost predicate Free(start: Origin, k: Key) {
    forall o :: start.scope(k, o)
  }

  lemma FixedAreRipe(cr: Cr, start: Origin, ks: seq<Key>, down: set<Component>)
    requires start == From(cr, start.store)
    requires forall i :: 0 <= i < |ks| ==> Needs(ks[i].kind) <= down && Fixed(cr, ks[i])
    ensures Ripe(start, ks, down)
  {
    forall i | 0 <= i < |ks| ensures Free(start, ks[i]) && ks[i].kind !in {NetworkPolicy, Csv} {
      forall o ensures start.scope(ks[i], o) { MayErase(cr, start, ks[i], o); }
    }
  }

  lemma PrometheusFrontIsRipe(cr: Cr, start: Origin)
    requires start == From(cr, start.store)
    ensures Ripe(start, PrometheusFrontKeys(cr), {})
  {
    FixedAreRipe(cr, start, PrometheusFrontKeys(cr), {});
  }

  lemma PrometheusBackIsRipe(cr: Cr, start: Origin)
    requires start == From(cr, start.store)
    ensures Ripe(start, PrometheusBackKeys(cr), {PrometheusServer})
  {
    FixedAreRipe(cr, start, PrometheusBackKeys(cr), {PrometheusServer});
  }

  lemma GrafanaBackIsRipe(cr: Cr, start: Origin)
    requires start == From(cr, start.store)
    requires !cr.Descoped()
    ensures Ripe(start, GrafanaBackKeys(cr), {PrometheusServer})
  {
    FixedAreRipe(cr, start, GrafanaBackKeys(cr), {PrometheusServer});
  }

  lemma AlertmanagerBackIsRipe(cr: Cr, start: Origin)
    requires start == From(cr, start.store)
    ensures Ripe(start, AlertmanagerBackKeys(cr), {PrometheusServer})
  {
    FixedAreRipe(cr, start, AlertmanagerBackKeys(cr), {PrometheusServer});
  }

  lemma PromtailIsRipe(cr: Cr, start: Origin)
    requires start == From(cr, start.store)
    requires !PromtailOff(cr)
    ensures Ripe(start, PromtailKeys(cr), {PrometheusServer})
  {
    FixedAreRipe(cr, start, PromtailKeys(cr), {PrometheusServer});
  }

  lemma PrometheusInstallationIsRipe(cr: Cr, start: Origin)
    requires start == From(cr, start.store)
    ensures Ripe(start, PrometheusInstallationKeys(cr), Operated)
  {
    FixedAreRipe(cr, start, PrometheusInstallationKeys(cr), Operated);
  }

  lemma GrafanaInstallationIsRipe(cr: Cr, start: Origin)
    requires start == From(cr, start.store)
    requires !cr.Descoped()
    ensures Ripe(start, GrafanaInstallationKeys(cr), Operated)
  {
    FixedAreRipe(cr, start, GrafanaInstallationKeys(cr), Operated);
  }

  lemma LoggingIsRipe(cr: Cr, start: Origin)
    requires start == From(cr, start.store)
    requires !cr.Descoped()
    ensures Ripe(start, LoggingInstances(), Everything)
  {
    FixedAreRipe(cr, start, LoggingInstances(), Everything);
  }

  lemma ResourcesAreRipe(cr: Cr, start: Origin)
    requires start == From(cr, start.store)
    ensures Ripe(start, ResourcesKeys(cr), Everything)
  {
    FixedAreRipe(cr, start, ResourcesKeys(cr), Everything);
  }

  /** No workload has appeared that the environment shuns for the sake of an object that is still there. */
  ghost predicate KeptAway(c: Cluster, was: set<Key>, s: Store, now: set<Key>) {
    forall w, g :: c.Shuns(w, g) && g in s && w !in was ==> w !in now
  }

  /** Nothing but these objects has gone. */
  ghost predicate Sparing(c: Cluster, was: Snapshot, now: Snapshot, ks: seq<Key>) {
    (forall k :: k in was.store && k !in ks ==> k in now.store) && KeptAway(c, was.workloads, now.store, now.workloads)
  }

  lemma SparingOn(c: Cluster, was: Snapshot, mid: Snapshot, now: Snapshot, ks: seq<Key>, k: Key)
    requires Sparing(c, was, mid, ks) && k in ks && (now.store == mid.store || now.store == mid.store - {k})
    requires KeptAway(c, mid.workloads, mid.store, now.workloads)
    ensures Sparing(c, was, now, ks)
  {
  }

  /** The log goes on at `n` with the deletion of `k`, in this cluster. */
  ghost predicate FirstCall(log: seq<Step>, n: nat, k: Key, at: Snapshot) {
    n < |log| && log[n].op == Del(k) && log[n].pre == at
  }

  lemma MoveKeepsAway(c: Cluster)
    ensures KeptAway(c, c.workloads, c.store, c.Moved())
  {
  }

  lemma RipeStays(cr: Cr, sole: set<Component>, start: Origin, ks: seq<Key>, i: nat, down: set<Component>, was: Snapshot, now: Snapshot)
    requires i < |ks| && Ripe(start, ks, down) && AllDown(cr, sole, was, down) && Waned(cr, sole, was, now)
    ensures AllDown(cr, sole, now, Needs(ks[i].kind)) && (ks[i] in now.store ==> start.scope(ks[i], now.store[ks[i]]))
    ensures ks[i].kind != NetworkPolicy && ks[i].kind != Csv
  {
  }

  /** Consecutive deletions, each with its NotFound ignored. */
  method DropAll(c: Cluster, cr: Cr, ks: seq<Key>, ghost down: set<Component>, ghost sole: set<Component>, ghost start: Origin, ghost n: nat)
    returns (ok: bool)
    requires Started(cr, sole, start, n, c.log, c.store)
    requires Ripe(start, ks, down) && AllDown(cr, sole, c.Now(), down)
    modifies c
    ensures Progress(cr, sole, start, n, old(c.log), old(c.Now()), c.log, c.Now())
    ensures ok ==> Absent(c.store, ks)
    ensures Sparing(c, old(c.Now()), c.Now(), ks)
    ensures OperatorCsvs(c.store, cr.ns) == OperatorCsvs(old(c.store), cr.ns)
    ensures c.Reliable() ==> ok
    ensures c.Calm(old(c.workloads), c.workloads)
    ensures ks != [] ==> |old(c.log)| < |c.log|
  {
    ghost var was, before := c.Now(), c.log;
    ok := true;
    for i := 0 to |ks|
      invariant i > 0 ==> |before| < |c.log|
      invariant ok && Dropping(c, cr, sole, start, n, before, was, c.log, c.Now(), ks, i)
    {
      ok := DropNext(c, cr, ks, i, down, sole, start, n, before, was);
      if !ok { break; }
    }
  }

  /** What the deletions have done, the first `i` of them successfully. */
  ghost predicate Dropping(c: Cluster, cr: Cr, sole: set<Component>, start: Origin, n: nat, before: seq<Step>, was: Snapshot,
                           log: seq<Step>, now: Snapshot, ks: seq<Key>, i: nat)
  {
    && Progress(cr, sole, start, n, before, was, log, now)
    && Sparing(c, was, now, ks)
    && c.Calm(was.workloads, now.workloads)
    && OperatorCsvs(now.store, cr.ns) == OperatorCsvs(was.store, cr.ns)
    && i <= |ks| && forall j :: 0 <= j < i ==> ks[j] !in now.store
  }

  method DropNext(c: Cluster, cr: Cr, ks: seq<Key>, i: nat, ghost down: set<Component>, ghost sole: set<Component>, ghost start: Origin,
                  ghost n: nat, ghost before: seq<Step>, ghost was: Snapshot)
    returns (ok: bool)
    requires i < |ks| && Dropping(c, cr, sole, start, n, before, was, c.log, c.Now(), ks, i)
    requires Ripe(start, ks, down) && AllDown(cr, sole, was, down)
    modifies c
    ensures Dropping(c, cr, sole, start, n, before, was, c.log, c.Now(), ks, if ok then i + 1 else i)
    ensures |before| < |c.log|
    ensures c.Reliable() ==> ok
  {
    ghost var mid, upTo := c.Now(), c.log;
    RipeStays(cr, sole, start, ks, i, down, was, mid);
    MoveKeepsAway(c);
    var ack := Erase(c, cr, ks[i], sole, start, n);
    ProgressOn(cr, sole, start, n, before, was, upTo, mid, c.log, c.Now());
    SparingOn(c, was, mid, c.Now(), ks, ks[i]);
    ok := ack != Failed;
  }

  /** The environment shuns `w` for the sake of an object that outlasts the first deletions. */
  ghost predicate GuardsWait(c: Cluster, w: Key, g: Key, s: Store, front: seq<Key>) {
    c.Shuns(w, g) && g in s && g !in front
  }

  /** What winding down `w` comes to: nothing but these objects goes, and the wait ends where the environment holds back. */
  ghost predicate WindsDown(c: Cluster, front: seq<Key>, w: Key, back: seq<Key>, was: Snapshot, now: Snapshot, status: StageStatus) {
    && Sparing(c, was, now, front + back)
    && (c.Reliable() && w !in was.workloads && (exists g :: GuardsWait(c, w, g, was.store, front)) ==> status.ResultSuccess?)
  }

  /** Delete what leads to a component, wait for its workload to go, delete the rest. */
  method WindDown(c: Cluster, cr: Cr, front: seq<Key>, x: Component, back: seq<Key>,
                  ghost down: set<Component>, ghost sole: set<Component>, ghost start: Origin, ghost n: nat)
    returns (status: StageStatus)
    requires Started(cr, sole, start, n, c.log, c.store)
    requires Ripe(start, front, down) && Ripe(start, back, down + {x}) && AllDown(cr, sole, c.Now(), down)
    requires exists i :: 0 <= i < |front| && front[i] == Resource(cr, x)
    modifies c
    ensures Progress(cr, sole, start, n, old(c.log), old(c.Now()), c.log, c.Now())
    ensures status.ResultSuccess? ==> Absent(c.store, front) && Absent(c.store, back) && (x in sole ==> Down(cr, c.Now(), x))
    ensures OperatorCsvs(c.store, cr.ns) == OperatorCsvs(old(c.store), cr.ns)
    ensures Smooth(c, cr, old(c.workloads)) ==> status.ResultSuccess?
    ensures WindsDown(c, front, Awaited(cr, x), back, old(c.Now()), c.Now(), status)
    ensures |old(c.log)| < |c.log|
    ensures c.Calm(old(c.workloads), c.workloads)
  {
    status := Retire(c, cr, front, x, down, sole, start, n);
    if status == ResultSuccess {
      var ok := DropAll(c, cr, back, down + {x}, sole, start, n);
      if !ok { status := ResultFailed; }
    }
  }

  /** The first half of it, wait included. */
  method Retire(c: Cluster, cr: Cr, front: seq<Key>, x: Component,
                ghost down: set<Component>, ghost sole: set<Component>, ghost start: Origin, ghost n: nat)
    returns (status: StageStatus)
    requires Started(cr, sole, start, n, c.log, c.store)
    requires Ripe(start, front, down) && AllDown(cr, sole, c.Now(), down)
    requires exists i :: 0 <= i < |front| && front[i] == Resource(cr, x)
    modifies c
    ensures Progress(cr, sole, start, n, old(c.log), old(c.Now()), c.log, c.Now())
    ensures status.ResultSuccess? ==> Absent(c.store, front) && (x in sole ==> Down(cr, c.Now(), x))
    ensures OperatorCsvs(c.store, cr.ns) == OperatorCsvs(old(c.store), cr.ns)
    ensures Smooth(c, cr, old(c.workloads)) ==> status.ResultSuccess?
    ensures WindsDown(c, front, Awaited(cr, x), [], old(c.Now()), c.Now(), status)
    ensures |old(c.log)| < |c.log|
    ensures c.Calm(old(c.workloads), c.workloads)
  {
    status := ResultFailed;
    var ok := DropAll(c, cr, front, down, sole, start, n);
    if ok {
      MoveKeepsAway(c);
      status := WaitForRemoval(c, cr, x, sole, start, n);
    }
  }

  /** Whatever this selector finds may be deleted. */
  ghost predicate Sweeps(start: Origin, kind: Kind, ns: string, sel: Labels) {
    forall k: Key, o :: k.kind == kind && k.ns == ns && Matches(o, sel) ==> start.scope(k, o)
  }

  /** Cleanup looks for this kind under these labels. */
  predicate SweptKind(cr: Cr, kind: Kind, sel: Labels) {
    || (sel == ManagedBy && kind in {Secret, ConfigMap, DaemonSet})
    || (sel == ManagedBy && kind in {PrometheusRule, PodMonitor} && !cr.ExternalSyncDisabled())
    || (sel == ManagedBy && kind == GrafanaDashboard && !cr.ExternalSyncDisabled() && !cr.Descoped())
    || (sel == TokenRefreshers.ProxyLabels && kind in {Deployment, NetworkPolicy})
  }

  lemma MaySweep(cr: Cr, start: Origin, kind: Kind, sel: Labels)
    requires start == From(cr, start.store)
    requires SweptKind(cr, kind, sel)
    ensures Sweeps(start, kind, cr.ns, sel)
  {
    forall k: Key, o | k.kind == kind && k.ns == cr.ns && Matches(o, sel) ensures start.scope(k, o) { MayErase(cr, start, k, o); }
  }

  /** List by label, then delete one by one; here a NotFound is an error. */
  method EraseSelected(c: Cluster, cr: Cr, kind: Kind, ns: string, sel: Labels,
                       ghost sole: set<Component>, ghost start: Origin, ghost n: nat)
    returns (ok: bool)
    requires Started(cr, sole, start, n, c.log, c.store)
    requires AllDown(cr, sole, c.Now(), Needs(kind))
    requires kind != Csv && (kind == NetworkPolicy ==> TokenRefreshers.Refreshers(c.store, ns) == {})
    requires Sweeps(start, kind, ns, sel)
    modifies c
    ensures Progress(cr, sole, start, n, old(c.log), old(c.Now()), c.log, c.Now())
    ensures ok ==> NoneLeft(c.store, kind, ns, sel)
    ensures OperatorCsvs(c.store, cr.ns) == OperatorCsvs(old(c.store), cr.ns)
    ensures c.Reliable() ==> ok
    ensures c.Calm(old(c.workloads), c.workloads)
  {
    var order;
    ok, order := ListAll(c, cr, kind, ns, sel, sole, start, n);
    ghost var listed := c.store;
    if ok {
      Listed(listed, kind, ns, sel, order);
      ListedFree(start, listed, kind, ns, sel, order);
      ok := EraseListed(c, cr, order, kind, ns, sole, start, n);
    }
    if ok { AllErased(listed, c.store, kind, ns, sel, order); }
  }

  ghost predicate Fresh(s: Store, order: seq<Key>, kind: Kind, ns: string) {
    && (forall i :: 0 <= i < |order| ==> order[i] in s && order[i].kind == kind && order[i].ns == ns)
    && (forall i, j :: 0 <= i < j < |order| ==> order[i] != order[j])
  }

  lemma Listed(s: Store, kind: Kind, ns: string, sel: Labels, order: seq<Key>)
    requires Enumerates(order, Selected(s, kind, ns, sel))
    ensures Fresh(s, order, kind, ns)
  {
    forall i | 0 <= i < |order| ensures order[i] in s && order[i].kind == kind && order[i].ns == ns {
      assert order[i] in Selected(s, kind, ns, sel);
    }
  }

  ghost predicate AllFree(start: Origin, s: Store, order: seq<Key>) {
    forall i :: 0 <= i < |order| && order[i] in s ==> start.scope(order[i], s[order[i]])
  }

  lemma ListedFree(start: Origin, s: Store, kind: Kind, ns: string, sel: Labels, order: seq<Key>)
    requires Enumerates(order, Selected(s, kind, ns, sel)) && Sweeps(start, kind, ns, sel)
    ensures AllFree(start, s, order)
  {
    forall i | 0 <= i < |order| ensures order[i] in s && start.scope(order[i], s[order[i]]) {
      assert order[i] in Selected(s, kind, ns, sel);
    }
  }

  /** The first `i` are deleted, the others are not. */
  ghost predicate Erasing(order: seq<Key>, i: nat, s: Store) {
    forall j :: 0 <= j < |order| ==> (order[j] in s <==> i <= j)
  }

  lemma ErasingOn(order: seq<Key>, i: nat, s: Store, t: Store)
    requires i < |order| && Erasing(order, i, s) && (t == s || t == s - {order[i]}) && order[i] !in t
    requires forall i, j :: 0 <= i < j < |order| ==> order[i] != order[j]
    ensures Erasing(order, i + 1, t)
  {
  }

  method EraseNth(c: Cluster, cr: Cr, order: seq<Key>, i: nat, ghost kind: Kind, ghost ns: string,
                  ghost sole: set<Component>, ghost start: Origin, ghost n: nat)
    returns (ok: bool)
    requires Started(cr, sole, start, n, c.log, c.store)
    requires i < |order| && order[i].kind == kind && order[i].ns == ns && Erasing(order, i, c.store)
    requires (forall i, j :: 0 <= i < j < |order| ==> order[i] != order[j]) && start.scope(order[i], c.store[order[i]])
    requires AllDown(cr, sole, c.Now(), Needs(kind))
    requires kind != Csv && (kind == NetworkPolicy ==> TokenRefreshers.Refreshers(c.store, ns) == {})
    modifies c
    ensures Progress(cr, sole, start, n, old(c.log), old(c.Now()), c.log, c.Now())
    ensures ok ==> Erasing(order, i + 1, c.store)
    ensures OperatorCsvs(c.store, cr.ns) == OperatorCsvs(old(c.store), cr.ns)
    ensures c.Reliable() ==> ok
    ensures c.Calm(old(c.workloads), c.workloads)
  {
    var ack := Erase(c, cr, order[i], sole, start, n);
    ok := ack == Done;
    if ok { ErasingOn(order, i, old(c.store), c.store); }
  }

  method EraseListed(c: Cluster, cr: Cr, order: seq<Key>, ghost kind: Kind, ghost ns: string,
                     ghost sole: set<Component>, ghost start: Origin, ghost n: nat)
    returns (ok: bool)
    requires Started(cr, sole, start, n, c.log, c.store)
    requires Fresh(c.store, order, kind, ns) && AllFree(start, c.store, order)
    requires AllDown(cr, sole, c.Now(), Needs(kind))
    requires kind != Csv && (kind == NetworkPolicy ==> TokenRefreshers.Refreshers(c.store, ns) == {})
    modifies c
    ensures Progress(cr, sole, start, n, old(c.log), old(c.Now()), c.log, c.Now())
    ensures ok ==> Absent(c.store, order)
    ensures OperatorCsvs(c.store, cr.ns) == OperatorCsvs(old(c.store), cr.ns)
    ensures c.Reliable() ==> ok
    ensures c.Calm(old(c.workloads), c.workloads)
  {
    ghost var was, before := c.Now(), c.log;
    ok := true;
    for i := 0 to |order|
      invariant Progress(cr, sole, start, n, before, was, c.log, c.Now())
      invariant ok && Erasing(order, i, c.store)
      invariant c.Calm(was.workloads, c.workloads)
      invariant OperatorCsvs(c.store, cr.ns) == OperatorCsvs(was.store, cr.ns)
    {
      if kind == NetworkPolicy { RefreshersShrink(was.store, c.store, ns); }
      ok := EraseNth(c, cr, order, i, kind, ns, sole, start, n);
      if !ok { break; }
    }
  }

  lemma RefreshersShrink(a: Store, b: Store, ns: string)
    requires Submap(b, a)
    ensures TokenRefreshers.Refreshers(b, ns) <= TokenRefreshers.Refreshers(a, ns)
  {
  }

  lemma AllErased(a: Store, b: Store, kind: Kind, ns: string, sel: Labels, order: seq<Key>)
    requires Submap(b, a) && Enumerates(order, Selected(a, kind, ns, sel))
    requires Absent(b, order)
    ensures NoneLeft(b, kind, ns, sel)
  {
    forall k: Key ensures k !in Selected(b, kind, ns, sel) {
      assert k in Selected(a, kind, ns, sel) ==> k in order;
    }
  }

  method ListAll(c: Cluster, cr: Cr, kind: Kind, ns: string, sel: Labels, ghost sole: set<Component>, ghost start: Origin, ghost n: nat)
    returns (ok: bool, order: seq<Key>)
    requires Started(cr, sole, start, n, c.log, c.store)
    modifies c
    ensures Progress(cr, sole, start, n, old(c.log), old(c.Now()), c.log, c.Now())
    ensures c.store == old(c.store)
    ensures ok ==> Enumerates(order, Selected(c.store, kind, ns, sel))
    ensures c.Reliable() ==> ok
    ensures c.Calm(old(c.workloads), c.workloads)
  {
    var listing := c.List(kind, ns, sel);
    DriftWanes(cr, sole, old(c.Now()), c.Now());
    TornOn(cr, sole, start, n, old(c.log), Step(c.Now(), Read, c.Now()));
    ok, order := listing.Listed?, if listing.Listed? then listing.order else [];
  }

  /** Everything labelled of a kind that cleanup looks for. */
  method Sweep(c: Cluster, cr: Cr, kind: Kind, sel: Labels, ghost sole: set<Component>, ghost start: Origin, ghost n: nat) returns (ok: bool)
    requires Launched(cr, sole, start, n, c.log, c.store) && SweptKind(cr, kind, sel)
    requires AllDown(cr, sole, c.Now(), Needs(kind))
    requires kind == NetworkPolicy ==> TokenRefreshers.Refreshers(c.store, cr.ns) == {}
    modifies c
    ensures Progress(cr, sole, start, n, old(c.log), old(c.Now()), c.log, c.Now())
    ensures ok ==> NoneLeft(c.store, kind, cr.ns, sel)
    ensures OperatorCsvs(c.store, cr.ns) == OperatorCsvs(old(c.store), cr.ns)
    ensures c.Reliable() ==> ok
    ensures c.Calm(old(c.workloads), c.workloads)
  {
    MaySweep(cr, start, kind, sel);
    ok := EraseSelected(c, cr, kind, cr.ns, sel, sole, start, n);
  }

  /** One object with a fixed name, or one version. */
  method EraseOne(c: Cluster, cr: Cr, k: Key, ghost sole: set<Component>, ghost start: Origin, ghost n: nat) returns (ack: Ack)
    requires Launched(cr, sole, start, n, c.log, c.store) && (Fixed(cr, k) || OwnVersion(cr, start.store, k))
    requires AllDown(cr, sole, c.Now(), Needs(k.kind)) && k.kind != NetworkPolicy
    modifies c
    ensures Progress(cr, sole, start, n, old(c.log), old(c.Now()), c.log, c.Now())
    ensures !ack.Failed? ==> k !in c.store
    ensures c.store == old(c.store) || c.store == old(c.store) - {k}
    ensures k.kind != Csv || k.ns != cr.ns ==> OperatorCsvs(c.store, cr.ns) == OperatorCsvs(old(c.store), cr.ns)
    ensures c.Reliable() ==> ack == if k in old(c.store) then Done else Missing
    ensures c.Calm(old(c.workloads), c.workloads)
  {
    if k in c.store { MayErase(cr, start, k, c.store[k]); }
    ack := Erase(c, cr, k, sole, start, n);
  }

  // ---------- The stages ----------

  method CleanupPrometheusConfiguration(c: Cluster, cr: Cr, ghost sole: set<Component>, ghost start: Origin, ghost n: nat) returns (status: StageStatus)
    requires Launched(cr, sole, start, n, c.log, c.store)
    modifies c
    ensures Progress(cr, sole, start, n, old(c.log), old(c.Now()), c.log, c.Now())
    ensures status.ResultSuccess? ==> Achieved(cr, sole, PrometheusConfigurationStage, c.Now())
    ensures OperatorCsvs(c.store, cr.ns) == OperatorCsvs(old(c.store), cr.ns)
    ensures Smooth(c, cr, old(c.workloads)) ==> status.ResultSuccess?
    ensures WindsDown(c, PrometheusFrontKeys(cr), Awaited(cr, PrometheusServer), PrometheusBackKeys(cr), old(c.Now()), c.Now(), status)
    ensures |old(c.log)| < |c.log|
    ensures c.Calm(old(c.workloads), c.workloads)
  {
    PrometheusFrontIsRipe(cr, start);
    PrometheusBackIsRipe(cr, start);
    assert PrometheusFrontKeys(cr)[2] == Resource(cr, PrometheusServer);
    assert {} + {PrometheusServer} == {PrometheusServer};
    status := WindDown(c, cr, PrometheusFrontKeys(cr), PrometheusServer, PrometheusBackKeys(cr), {}, sole, start, n);
  }

  method CleanupGrafanaConfiguration(c: Cluster, cr: Cr, ghost sole: set<Component>, ghost start: Origin, ghost n: nat) returns (status: StageStatus)
    requires Launched(cr, sole, start, n, c.log, c.store)
    requires AllDown(cr, sole, c.Now(), {PrometheusServer})
    modifies c
    ensures Progress(cr, sole, start, n, old(c.log), old(c.Now()), c.log, c.Now())
    ensures status.ResultSuccess? ==> Achieved(cr, sole, GrafanaConfigurationStage, c.Now())
    ensures OperatorCsvs(c.store, cr.ns) == OperatorCsvs(old(c.store), cr.ns)
    ensures Smooth(c, cr, old(c.workloads)) ==> status.ResultSuccess?
    ensures cr.Descoped() ==> status.ResultSuccess? && c.Now() == old(c.Now()) && c.log == old(c.log)
    ensures !cr.Descoped() ==> WindsDown(c, [GrafanaCr(cr)], Awaited(cr, GrafanaServer), GrafanaBackKeys(cr), old(c.Now()), c.Now(), status)
    ensures c.Calm(old(c.workloads), c.workloads)
  {
    if cr.Descoped() { return ResultSuccess; }
    GrafanaBackIsRipe(cr, start);
    assert [GrafanaCr(cr)][0] == Resource(cr, GrafanaServer);
    status := WindDown(c, cr, [GrafanaCr(cr)], GrafanaServer, GrafanaBackKeys(cr), {PrometheusServer}, sole, start, n);
  }

  method CleanupPrometheusInstallation(c: Cluster, cr: Cr, ghost sole: set<Component>, ghost start: Origin, ghost n: nat) returns (status: StageStatus)
    requires Launched(cr, sole, start, n, c.log, c.store)
    requires AllDown(cr, sole, c.Now(), Operated)
    modifies c
    ensures Progress(cr, sole, start, n, old(c.log), old(c.Now()), c.log, c.Now())
    ensures status.ResultSuccess? ==> Achieved(cr, sole, PrometheusInstallationStage, c.Now())
    ensures OperatorCsvs(c.store, cr.ns) == OperatorCsvs(old(c.store), cr.ns)
    ensures Smooth(c, cr, old(c.workloads)) ==> status.ResultSuccess?
    ensures FirstCall(c.log, |old(c.log)|, PrometheusSubscription(cr), Snapshot(old(c.store), old(c.Moved())))
    ensures c.Calm(old(c.workloads), c.workloads)
  {
    PrometheusInstallationIsRipe(cr, start);
    var ok := DropInTurn(c, cr, PrometheusInstallationKeys(cr), Operated, sole, start, n);
    status := if ok then ResultSuccess else ResultFailed;
  }

  /** The same deletions, with an eye on the first. */
  method DropInTurn(c: Cluster, cr: Cr, ks: seq<Key>, ghost down: set<Component>, ghost sole: set<Component>, ghost start: Origin, ghost n: nat)
    returns (ok: bool)
    requires Started(cr, sole, start, n, c.log, c.store)
    requires ks != [] && Ripe(start, ks, down) && AllDown(cr, sole, c.Now(), down)
    modifies c
    ensures Progress(cr, sole, start, n, old(c.log), old(c.Now()), c.log, c.Now())
    ensures ok ==> Absent(c.store, ks)
    ensures FirstCall(c.log, |old(c.log)|, ks[0], Snapshot(old(c.store), old(c.Moved())))
    ensures OperatorCsvs(c.store, cr.ns) == OperatorCsvs(old(c.store), cr.ns)
    ensures c.Reliable() ==> ok
    ensures c.Calm(old(c.workloads), c.workloads)
  {
    var ack := Erase(c, cr, ks[0], sole, start, n);
    ok := ack != Failed;
    if ok {
      ok := DropAll(c, cr, ks[1..], down, sole, start, n);
      assert forall i :: 0 < i < |ks| ==> ks[i] == ks[1..][i - 1];
    }
  }

  method CleanupAlertmanagerInstallation(c: Cluster, cr: Cr, ghost sole: set<Component>, ghost start: Origin, ghost n: nat) returns (status: StageStatus)
    requires Launched(cr, sole, start, n, c.log, c.store)
    requires AllDown(cr, sole, c.Now(), {PrometheusServer})
    modifies c
    ensures Progress(cr, sole, start, n, old(c.log), old(c.Now()), c.log, c.Now())
    ensures status.ResultSuccess? ==> Achieved(cr, sole, AlertmanagerInstallationStage, c.Now())
    ensures OperatorCsvs(c.store, cr.ns) == OperatorCsvs(old(c.store), cr.ns)
    ensures Smooth(c, cr, old(c.workloads)) ==> status.ResultSuccess?
    ensures c.Calm(old(c.workloads), c.workloads)
  {
    AlertmanagerBackIsRipe(cr, start);
    assert [AlertmanagerCr(cr)][0] == Resource(cr, AlertmanagerServer);
    status := WindDown(c, cr, [AlertmanagerCr(cr)], AlertmanagerServer, AlertmanagerBackKeys(cr), {PrometheusServer}, sole, start, n);
  }

  method CleanupPromtailInstallation(c: Cluster, cr: Cr, ghost sole: set<Component>, ghost start: Origin, ghost n: nat) returns (status: StageStatus)
    requires Launched(cr, sole, start, n, c.log, c.store)
    requires AllDown(cr, sole, c.Now(), {PrometheusServer})
    modifies c
    ensures Progress(cr, sole, start, n, old(c.log), old(c.Now()), c.log, c.Now())
    ensures status.ResultSuccess? ==> Achieved(cr, sole, PromtailInstallationStage, c.Now())
    ensures OperatorCsvs(c.store, cr.ns) == OperatorCsvs(old(c.store), cr.ns)
    ensures Smooth(c, cr, old(c.workloads)) ==> status.ResultSuccess?
    ensures c.Calm(old(c.workloads), c.workloads)
  {
    if PromtailOff(cr) { return ResultSuccess; }
    PromtailIsRipe(cr, start);
    var ok := DropAll(c, cr, PromtailKeys(cr), {PrometheusServer}, sole, start, n);
    status := if ok then ResultSuccess else ResultFailed;
  }

  method CleanupTokenRequest(c: Cluster, cr: Cr, ghost sole: set<Component>, ghost start: Origin, ghost n: nat) returns (status: StageStatus)
    requires Launched(cr, sole, start, n, c.log, c.store)
    modifies c
    ensures Progress(cr, sole, start, n, old(c.log), old(c.Now()), c.log, c.Now())
    ensures status.ResultSuccess? ==> Achieved(cr, sole, TokenRequestStage, c.Now())
    ensures OperatorCsvs(c.store, cr.ns) == OperatorCsvs(old(c.store), cr.ns)
    ensures Smooth(c, cr, old(c.workloads)) ==> status.ResultSuccess?
    ensures c.Calm(old(c.workloads), c.workloads)
  {
    var ack := EraseOne(c, cr, CredentialsSecret(cr), sole, start, n);
    status := if ack == Failed then ResultFailed else ResultSuccess;
  }

  method CleanupGrafanaInstallation(c: Cluster, cr: Cr, ghost sole: set<Component>, ghost start: Origin, ghost n: nat) returns (status: StageStatus)
    requires Launched(cr, sole, start, n, c.log, c.store)
    requires AllDown(cr, sole, c.Now(), Operated)
    modifies c
    ensures Progress(cr, sole, start, n, old(c.log), old(c.Now()), c.log, c.Now())
    ensures status.ResultSuccess? ==> Achieved(cr, sole, GrafanaInstallationStage, c.Now())
    ensures OperatorCsvs(c.store, cr.ns) == OperatorCsvs(old(c.store), cr.ns)
    ensures Smooth(c, cr, old(c.workloads)) ==> status.ResultSuccess?
    ensures c.Calm(old(c.workloads), c.workloads)
  {
    if cr.Descoped() { return ResultSuccess; }
    GrafanaInstallationIsRipe(cr, start);
    var ok := DropGrafanaInstallation(c, cr, GrafanaInstallationKeys(cr), sole, start, n);
    status := if ok then ResultSuccess else ResultFailed;
  }

  method DropGrafanaInstallation(c: Cluster, cr: Cr, ks: seq<Key>, ghost sole: set<Component>, ghost start: Origin, ghost n: nat) returns (ok: bool)
    requires Launched(cr, sole, start, n, c.log, c.store)
    requires !cr.Descoped() && Ripe(start, ks, Operated) && AllDown(cr, sole, c.Now(), Operated)
    modifies c
    ensures Progress(cr, sole, start, n, old(c.log), old(c.Now()), c.log, c.Now())
    ensures ok ==> Absent(c.store, ks) && GrafanaOperator(cr) !in c.store
    ensures OperatorCsvs(c.store, cr.ns) == OperatorCsvs(old(c.store), cr.ns)
    ensures c.Reliable() ==> ok
    ensures c.Calm(old(c.workloads), c.workloads)
  {
    ok := DropAll(c, cr, ks, Operated, sole, start, n);
    if ok { ok := DropGrafanaOperator(c, cr, sole, start, n); }
  }

  /** The subscription's deployment outlives it and is deleted by hand. */
  method DropGrafanaOperator(c: Cluster, cr: Cr, ghost sole: set<Component>, ghost start: Origin, ghost n: nat) returns (ok: bool)
    requires !cr.Descoped() && Launched(cr, sole, start, n, c.log, c.store)
    requires AllDown(cr, sole, c.Now(), Operated)
    modifies c
    ensures Progress(cr, sole, start, n, old(c.log), old(c.Now()), c.log, c.Now())
    ensures ok ==> GrafanaOperator(cr) !in c.store
    ensures OperatorCsvs(c.store, cr.ns) == OperatorCsvs(old(c.store), cr.ns)
    ensures c.Reliable() ==> ok
    ensures c.Calm(old(c.workloads), c.workloads)
  {
    var order;
    ok, order := ListAll(c, cr, Deployment, cr.ns, map[], sole, start, n);
    if ok {
      ghost var was := c.store;
      Listed(was, Deployment, cr.ns, map[], order);
      var ks := Named(order, "grafana-operator");
      OperatorIsRipe(cr, start, order, ks);
      ok := DropAll(c, cr, ks, Operated, sole, start, n);
      if ok { OperatorErased(cr, was, c.store, order, ks); }
    }
  }

  lemma OperatorIsRipe(cr: Cr, start: Origin, order: seq<Key>, ks: seq<Key>)
    requires start == From(cr, start.store)
    requires !cr.Descoped() && forall k :: k in ks ==> k in order && k.name == "grafana-operator"
    requires forall i :: 0 <= i < |order| ==> order[i].kind == Deployment && order[i].ns == cr.ns
    ensures Ripe(start, ks, Operated)
  {
    forall i | 0 <= i < |ks| ensures ks[i] == GrafanaOperator(cr) {
      assert ks[i] in order;
    }
    FixedAreRipe(cr, start, ks, Operated);
  }

  lemma OperatorErased(cr: Cr, was: Store, now: Store, order: seq<Key>, ks: seq<Key>)
    requires Enumerates(order, Selected(was, Deployment, cr.ns, map[])) && Submap(now, was) && Absent(now, ks)
    requires forall k :: k in order && k.name == "grafana-operator" ==> k in ks
    ensures GrafanaOperator(cr) !in now
  {
    assert GrafanaOperator(cr) in was ==> GrafanaOperator(cr) in Selected(was, Deployment, cr.ns, map[]);
  }

  method Named(order: seq<Key>, name: string) returns (ks: seq<Key>)
    ensures forall k :: k in ks <==> k in order && k.name == name
  {
    ks := [];
    for i := 0 to |order|
      invariant forall k :: k in ks <==> k in order[..i] && k.name == name
    {
      assert order[..i + 1] == order[..i] + [order[i]];
      if order[i].name == name { ks := ks + [order[i]]; }
    }
    assert order[..|order|] == order;
  }

  /** One operator ClusterServiceVersion per pass. */
  method CleanupCsv(c: Cluster, cr: Cr, ghost sole: set<Component>, ghost start: Origin, ghost n: nat) returns (status: StageStatus)
    requires Launched(cr, sole, start, n, c.log, c.store)
    requires AllDown(cr, sole, c.Now(), Everything)
    modifies c
    ensures Progress(cr, sole, start, n, old(c.log), old(c.Now()), c.log, c.Now())
    ensures status.ResultSuccess? ==> Achieved(cr, sole, CsvStage, c.Now())
    ensures status.ResultSuccess? ==> OperatorCsvs(old(c.store), cr.ns) == {}
    ensures status.ResultSuccess? ==> forall k :: k in c.store && k.kind == Csv && k.ns == cr.ns ==> !OperatorVersion(k.name)
    ensures c.store == old(c.store) || exists name :: OperatorVersion(name) && c.store == old(c.store) - {Key(Csv, cr.ns, name)}
    ensures status.ResultInProgress? ==>
      exists k :: k in OperatorCsvs(old(c.store), cr.ns) && OperatorCsvs(c.store, cr.ns) == OperatorCsvs(old(c.store), cr.ns) - {k}
    ensures c.Reliable() ==> !status.ResultFailed?
    ensures c.Calm(old(c.workloads), c.workloads)
  {
    var listed, order := ListAll(c, cr, Csv, cr.ns, map[], sole, start, n);
    status := ResultFailed;
    if listed {
      var i := FirstOperatorCsv(order);
      if i < |order| {
        assert order[i] in Selected(c.store, Csv, cr.ns, map[]);
        status := EraseCsv(c, cr, order[i], sole, start, n);
      } else {
        NoOperatorCsv(c.store, cr.ns, order);
        NoVersionLeft(c.store, cr.ns);
        status := ResultSuccess;
      }
    }
  }

  method FirstOperatorCsv(order: seq<Key>) returns (i: nat)
    ensures i <= |order| && forall j :: 0 <= j < i ==> !OperatorCsv(order[j].name)
    ensures i < |order| ==> OperatorCsv(order[i].name)
  {
    i := 0;
    while i < |order|
      invariant i <= |order| && forall j :: 0 <= j < i ==> !OperatorCsv(order[j].name)
    {
      if OperatorCsv(order[i].name) { return; }
      i := i + 1;
    }
  }

  lemma NoOperatorCsv(s: Store, ns: string, order: seq<Key>)
    requires Enumerates(order, Selected(s, Csv, ns, map[]))
    requires forall j :: 0 <= j < |order| ==> !OperatorCsv(order[j].name)
    ensures OperatorCsvs(s, ns) == {}
  {
    forall k | k in s && k.kind == Csv && k.ns == ns ensures !OperatorCsv(k.name) {
      assert k in Selected(s, Csv, ns, map[]);
      assert k in order;
    }
  }

  /** What counts as an operator's version, by name. */
  lemma NoVersionLeft(s: Store, ns: string)
    requires OperatorCsvs(s, ns) == {}
    ensures forall k :: k in s && k.kind == Csv && k.ns == ns ==> !OperatorVersion(k.name)
  {
    forall k | k in s && k.kind == Csv && k.ns == ns ensures !OperatorVersion(k.name) {
      OperatorCsvIff(k.name);
      assert k !in OperatorCsvs(s, ns);
    }
  }

  method EraseCsv(c: Cluster, cr: Cr, k: Key, ghost sole: set<Component>, ghost start: Origin, ghost n: nat) returns (status: StageStatus)
    requires Launched(cr, sole, start, n, c.log, c.store)
    requires AllDown(cr, sole, c.Now(), Everything)
    requires k in OperatorCsvs(c.store, cr.ns)
    modifies c
    ensures Progress(cr, sole, start, n, old(c.log), old(c.Now()), c.log, c.Now())
    ensures !status.ResultSuccess? && OperatorVersion(k.name) && (c.store == old(c.store) || c.store == old(c.store) - {k})
    ensures status.ResultInProgress? ==> OperatorCsvs(c.store, cr.ns) == OperatorCsvs(old(c.store), cr.ns) - {k}
    ensures c.Reliable() ==> status.ResultInProgress?
    ensures c.Calm(old(c.workloads), c.workloads)
  {
    OperatorCsvIff(k.name);
    var ack := EraseOne(c, cr, k, sole, start, n);
    status := if ack == Failed then ResultFailed else ResultInProgress;
  }

  method CleanupManaged(c: Cluster, cr: Cr, ghost sole: set<Component>, ghost start: Origin, ghost n: nat) returns (ok: bool)
    requires Launched(cr, sole, start, n, c.log, c.store)
    requires AllDown(cr, sole, c.Now(), Everything)
    modifies c
    ensures Progress(cr, sole, start, n, old(c.log), old(c.Now()), c.log, c.Now())
    ensures ok ==> ManagedGone(cr, c.store)
    ensures OperatorCsvs(c.store, cr.ns) == OperatorCsvs(old(c.store), cr.ns)
    ensures c.Reliable() ==> ok
    ensures c.Calm(old(c.workloads), c.workloads)
  {
    ok := Sweep(c, cr, Secret, ManagedBy, sole, start, n);
    if ok {
      ghost var s := c.store;
      ok := Sweep(c, cr, ConfigMap, ManagedBy, sole, start, n);
      NoneLeftStays(s, c.store, Secret, cr.ns, ManagedBy);
    }
  }

  method CleanupRules(c: Cluster, cr: Cr, ghost sole: set<Component>, ghost start: Origin, ghost n: nat) returns (ok: bool)
    requires Launched(cr, sole, start, n, c.log, c.store) && !cr.ExternalSyncDisabled()
    requires AllDown(cr, sole, c.Now(), Everything)
    modifies c
    ensures Progress(cr, sole, start, n, old(c.log), old(c.Now()), c.log, c.Now())
    ensures ok ==> NoneLeft(c.store, PrometheusRule, cr.ns, ManagedBy) && NoneLeft(c.store, PodMonitor, cr.ns, ManagedBy)
    ensures OperatorCsvs(c.store, cr.ns) == OperatorCsvs(old(c.store), cr.ns)
    ensures c.Reliable() ==> ok
    ensures c.Calm(old(c.workloads), c.workloads)
  {
    ok := Sweep(c, cr, PrometheusRule, ManagedBy, sole, start, n);
    if ok {
      ghost var s := c.store;
      ok := Sweep(c, cr, PodMonitor, ManagedBy, sole, start, n);
      NoneLeftStays(s, c.store, PrometheusRule, cr.ns, ManagedBy);
    }
  }

  method CleanupMonitoring(c: Cluster, cr: Cr, ghost sole: set<Component>, ghost start: Origin, ghost n: nat) returns (ok: bool)
    requires Launched(cr, sole, start, n, c.log, c.store) && !cr.ExternalSyncDisabled()
    requires AllDown(cr, sole, c.Now(), Everything)
    modifies c
    ensures Progress(cr, sole, start, n, old(c.log), old(c.Now()), c.log, c.Now())
    ensures ok ==> MonitoringGone(cr, c.store)
    ensures OperatorCsvs(c.store, cr.ns) == OperatorCsvs(old(c.store), cr.ns)
    ensures c.Reliable() ==> ok
    ensures c.Calm(old(c.workloads), c.workloads)
  {
    ok := true;
    if !cr.Descoped() {
      ok := Sweep(c, cr, GrafanaDashboard, ManagedBy, sole, start, n);
    }
    if ok {
      ghost var s := c.store;
      ok := CleanupRules(c, cr, sole, start, n);
      if !cr.Descoped() { NoneLeftStays(s, c.store, GrafanaDashboard, cr.ns, ManagedBy); }
    }
  }

  lemma NoProxies(s: Store, ns: string)
    requires NoneLeft(s, Deployment, ns, TokenRefreshers.ProxyLabels)
    ensures TokenRefreshers.Refreshers(s, ns) == {}
  {
    forall name: string ensures name !in TokenRefreshers.Refreshers(s, ns) {
      assert Key(Deployment, ns, name) !in Selected(s, Deployment, ns, TokenRefreshers.ProxyLabels);
    }
  }

  method CleanupDeployments(c: Cluster, cr: Cr, ghost sole: set<Component>, ghost start: Origin, ghost n: nat) returns (ok: bool)
    requires Launched(cr, sole, start, n, c.log, c.store)
    requires AllDown(cr, sole, c.Now(), Everything)
    modifies c
    ensures Progress(cr, sole, start, n, old(c.log), old(c.Now()), c.log, c.Now())
    ensures ok ==> NoneLeft(c.store, Deployment, cr.ns, TokenRefreshers.ProxyLabels) && Absent(c.store, ResourcesKeys(cr))
    ensures OperatorCsvs(c.store, cr.ns) == OperatorCsvs(old(c.store), cr.ns)
    ensures c.Reliable() ==> ok
    ensures c.Calm(old(c.workloads), c.workloads)
  {
    ok := Sweep(c, cr, Deployment, TokenRefreshers.ProxyLabels, sole, start, n);
    if ok {
      ghost var s := c.store;
      ResourcesAreRipe(cr, start);
      ok := DropAll(c, cr, ResourcesKeys(cr), Everything, sole, start, n);
      NoneLeftStays(s, c.store, Deployment, cr.ns, TokenRefreshers.ProxyLabels);
    }
  }

  /** Proxies first, their policies last. */
  method CleanupProxies(c: Cluster, cr: Cr, ghost sole: set<Component>, ghost start: Origin, ghost n: nat) returns (ok: bool)
    requires Launched(cr, sole, start, n, c.log, c.store)
    requires AllDown(cr, sole, c.Now(), Everything)
    modifies c
    ensures Progress(cr, sole, start, n, old(c.log), old(c.Now()), c.log, c.Now())
    ensures ok ==> ProxiesGone(cr, c.store)
    ensures OperatorCsvs(c.store, cr.ns) == OperatorCsvs(old(c.store), cr.ns)
    ensures c.Reliable() ==> ok
    ensures c.Calm(old(c.workloads), c.workloads)
  {
    ok := CleanupDeployments(c, cr, sole, start, n);
    if ok {
      ghost var s := c.store;
      NoProxies(s, cr.ns);
      ok := Sweep(c, cr, NetworkPolicy, TokenRefreshers.ProxyLabels, sole, start, n);
      NoneLeftStays(s, c.store, Deployment, cr.ns, TokenRefreshers.ProxyLabels);
      AbsentStays(s, c.store, ResourcesKeys(cr));
    }
  }

  method CleanupFiles(c: Cluster, cr: Cr, ghost sole: set<Component>, ghost start: Origin, ghost n: nat) returns (ok: bool)
    requires Launched(cr, sole, start, n, c.log, c.store)
    requires AllDown(cr, sole, c.Now(), Everything)
    modifies c
    ensures Progress(cr, sole, start, n, old(c.log), old(c.Now()), c.log, c.Now())
    ensures ok ==> ManagedGone(cr, c.store) && (!cr.ExternalSyncDisabled() ==> MonitoringGone(cr, c.store))
    ensures OperatorCsvs(c.store, cr.ns) == OperatorCsvs(old(c.store), cr.ns)
    ensures c.Reliable() ==> ok
    ensures c.Calm(old(c.workloads), c.workloads)
  {
    ok := CleanupManaged(c, cr, sole, start, n);
    if ok && !cr.ExternalSyncDisabled() {
      ghost var s := c.store;
      ok := CleanupMonitoring(c, cr, sole, start, n);
      ManagedStaysGone(cr, s, c.store);
    }
  }

  method CleanupSynced(c: Cluster, cr: Cr, ghost sole: set<Component>, ghost start: Origin, ghost n: nat) returns (ok: bool)
    requires Launched(cr, sole, start, n, c.log, c.store)
    requires AllDown(cr, sole, c.Now(), Everything)
    modifies c
    ensures Progress(cr, sole, start, n, old(c.log), old(c.Now()), c.log, c.Now())
    ensures ok ==> SyncedGone(cr, c.store)
    ensures OperatorCsvs(c.store, cr.ns) == OperatorCsvs(old(c.store), cr.ns)
    ensures c.Reliable() ==> ok
    ensures c.Calm(old(c.workloads), c.workloads)
  {
    ok := CleanupFiles(c, cr, sole, start, n);
    if ok {
      ghost var s := c.store;
      ok := Sweep(c, cr, DaemonSet, ManagedBy, sole, start, n);
      ManagedStaysGone(cr, s, c.store);
      if !cr.ExternalSyncDisabled() { MonitoringStaysGone(cr, s, c.store); }
    }
  }

  lemma SyncedStaysGone(cr: Cr, a: Store, b: Store)
    requires SyncedGone(cr, a) && Submap(b, a)
    ensures SyncedGone(cr, b)
  {
    ManagedStaysGone(cr, a, b);
    if !cr.ExternalSyncDisabled() { MonitoringStaysGone(cr, a, b); }
    NoneLeftStays(a, b, DaemonSet, cr.ns, ManagedBy);
  }

  lemma ManagedStaysGone(cr: Cr, a: Store, b: Store)
    requires ManagedGone(cr, a) && Submap(b, a)
    ensures ManagedGone(cr, b)
  {
    NoneLeftStays(a, b, Secret, cr.ns, ManagedBy);
    NoneLeftStays(a, b, ConfigMap, cr.ns, ManagedBy);
  }

  lemma MonitoringStaysGone(cr: Cr, a: Store, b: Store)
    requires MonitoringGone(cr, a) && Submap(b, a)
    ensures MonitoringGone(cr, b)
  {
    if !cr.Descoped() { NoneLeftStays(a, b, GrafanaDashboard, cr.ns, ManagedBy); }
    NoneLeftStays(a, b, PrometheusRule, cr.ns, ManagedBy);
    NoneLeftStays(a, b, PodMonitor, cr.ns, ManagedBy);
  }

  lemma ProxiesStayGone(cr: Cr, a: Store, b: Store)
    requires ProxiesGone(cr, a) && Submap(b, a)
    ensures ProxiesGone(cr, b)
  {
    NoneLeftStays(a, b, Deployment, cr.ns, TokenRefreshers.ProxyLabels);
    AbsentStays(a, b, ResourcesKeys(cr));
    NoneLeftStays(a, b, NetworkPolicy, cr.ns, TokenRefreshers.ProxyLabels);
  }

  method CleanupConfiguration(c: Cluster, cr: Cr, ghost sole: set<Component>, ghost start: Origin, ghost n: nat) returns (status: StageStatus)
    requires Launched(cr, sole, start, n, c.log, c.store)
    requires AllDown(cr, sole, c.Now(), Everything)
    modifies c
    ensures Progress(cr, sole, start, n, old(c.log), old(c.Now()), c.log, c.Now())
    ensures status.ResultSuccess? ==> ConfigurationGone(cr, c.store)
    ensures OperatorCsvs(c.store, cr.ns) == OperatorCsvs(old(c.store), cr.ns)
    ensures Smooth(c, cr, old(c.workloads)) ==> status.ResultSuccess?
    ensures c.Calm(old(c.workloads), c.workloads)
  {
    var ok := CleanupSynced(c, cr, sole, start, n);
    if ok {
      ghost var mid, upTo := c.Now(), c.log;
      ok := CleanupProxies(c, cr, sole, start, n);
      SyncedStaysGone(cr, mid.store, c.store);
      ProgressOn(cr, sole, start, n, old(c.log), old(c.Now()), upTo, mid, c.log, c.Now());
    }
    status := if ok then ResultSuccess else ResultFailed;
  }

  ghost predicate LoggingSound(s: Store) {
    forall k :: LoggingManaged(s, k) ==> InstalledCsv(s[k]) != ""
  }

  method CleanupLoggingInstallation(c: Cluster, cr: Cr, ghost sole: set<Component>, ghost start: Origin, ghost n: nat) returns (status: StageStatus)
    requires Launched(cr, sole, start, n, c.log, c.store)
    requires AllDown(cr, sole, c.Now(), Everything)
    modifies c
    ensures Progress(cr, sole, start, n, old(c.log), old(c.Now()), c.log, c.Now())
    ensures status.ResultSuccess? ==> Achieved(cr, sole, LoggingInstallationStage, c.Now())
    ensures cr.ns != LoggingNs ==> OperatorCsvs(c.store, cr.ns) == OperatorCsvs(old(c.store), cr.ns)
    ensures c.Reliable() && LoggingSound(old(c.store)) ==> status.ResultSuccess?
    ensures c.Calm(old(c.workloads), c.workloads)
  {
    status := ResultSuccess;
    if !cr.Descoped() {
      var ok, managed := LoggingIsManaged(c, cr, sole, start, n);
      if ok && managed {
        ghost var mid, upTo := c.Now(), c.log;
        ok := UninstallLogging(c, cr, sole, start, n);
        ProgressOn(cr, sole, start, n, old(c.log), old(c.Now()), upTo, mid, c.log, c.Now());
      }
      if !ok { status := ResultFailed; }
    }
  }

  /** checkLoggingSubscriptionForLabel: is there a subscription with the operator's label? */
  method LoggingIsManaged(c: Cluster, cr: Cr, ghost sole: set<Component>, ghost start: Origin, ghost n: nat) returns (ok: bool, managed: bool)
    requires Launched(cr, sole, start, n, c.log, c.store)
    modifies c
    ensures Progress(cr, sole, start, n, old(c.log), old(c.Now()), c.log, c.Now()) && c.store == old(c.store)
    ensures ok && managed ==> Selected(c.store, Subscription, LoggingNs, LoggingLabel) != map[]
    ensures ok && !managed ==> !LoggingManaged(c.store, LoggingSubscription())
    ensures c.Reliable() ==> ok
    ensures c.Calm(old(c.workloads), c.workloads)
  {
    var order;
    ok, order := ListAll(c, cr, Subscription, LoggingNs, LoggingLabel, sole, start, n);
    managed := order != [];
    if ok && managed { assert order[0] in Selected(c.store, Subscription, LoggingNs, LoggingLabel); }
    if ok && !managed { NothingManaged(c.store); }
  }

  lemma NothingManaged(s: Store)
    requires Enumerates([], Selected(s, Subscription, LoggingNs, LoggingLabel))
    ensures !LoggingManaged(s, LoggingSubscription())
  {
    assert LoggingSubscription() !in Selected(s, Subscription, LoggingNs, LoggingLabel);
  }

  /** getInstalledLoggingCSVName: the version on the first labelled subscription. */
  method InstalledLogging(c: Cluster, cr: Cr, ghost sole: set<Component>, ghost start: Origin, ghost n: nat) returns (ok: bool, installed: string)
    requires Launched(cr, sole, start, n, c.log, c.store)
    requires Selected(c.store, Subscription, LoggingNs, LoggingLabel) != map[]
    modifies c
    ensures Progress(cr, sole, start, n, old(c.log), old(c.Now()), c.log, c.Now())
    ensures c.store == old(c.store)
    ensures c.Reliable() && LoggingSound(c.store) ==> ok && installed != ""
    ensures ok ==> LoggingInstalled(c.store, installed)
    ensures c.Calm(old(c.workloads), c.workloads)
  {
    var order;
    ok, order := ListAll(c, cr, Subscription, LoggingNs, LoggingLabel, sole, start, n);
    installed := "";
    if ok {
      assert order != [];
      assert order[0] in Selected(c.store, Subscription, LoggingNs, LoggingLabel);
      assert LoggingManaged(c.store, order[0]);
      installed := InstalledCsv(c.store[order[0]]);
    }
  }

  method UninstallLogging(c: Cluster, cr: Cr, ghost sole: set<Component>, ghost start: Origin, ghost n: nat) returns (ok: bool)
    requires Launched(cr, sole, start, n, c.log, c.store)
    requires !cr.Descoped() && AllDown(cr, sole, c.Now(), Everything)
    requires Selected(c.store, Subscription, LoggingNs, LoggingLabel) != map[]
    modifies c
    ensures Progress(cr, sole, start, n, old(c.log), old(c.Now()), c.log, c.Now())
    ensures ok ==> LoggingSubscription() !in c.store
    ensures cr.ns != LoggingNs ==> OperatorCsvs(c.store, cr.ns) == OperatorCsvs(old(c.store), cr.ns)
    ensures c.Reliable() && LoggingSound(old(c.store)) ==> ok
    ensures c.Calm(old(c.workloads), c.workloads)
  {
    var installed;
    ok, installed := InstalledLogging(c, cr, sole, start, n);
    ok := ok && installed != "";
    if ok {
      TornShrinks(cr, sole, start, c.log[n..], c.store);
      InstalledBefore(start.store, c.store, installed);
      ok := DropLogging(c, cr, installed, sole, start, n);
    }
  }

  method DropLogging(c: Cluster, cr: Cr, installed: string, ghost sole: set<Component>, ghost start: Origin, ghost n: nat) returns (ok: bool)
    requires !cr.Descoped() && LoggingInstalled(start.store, installed) && Launched(cr, sole, start, n, c.log, c.store)
    requires AllDown(cr, sole, c.Now(), Everything)
    modifies c
    ensures Progress(cr, sole, start, n, old(c.log), old(c.Now()), c.log, c.Now())
    ensures ok ==> LoggingSubscription() !in c.store
    ensures cr.ns != LoggingNs ==> OperatorCsvs(c.store, cr.ns) == OperatorCsvs(old(c.store), cr.ns)
    ensures c.Reliable() ==> ok
    ensures c.Calm(old(c.workloads), c.workloads)
  {
    ok := DropLoggingOperator(c, cr, installed, sole, start, n);
    if ok {
      LoggingIsRipe(cr, start);
      ok := DropAll(c, cr, LoggingInstances(), Everything, sole, start, n);
    }
  }

  method DropLoggingOperator(c: Cluster, cr: Cr, installed: string, ghost sole: set<Component>, ghost start: Origin, ghost n: nat) returns (ok: bool)
    requires !cr.Descoped() && LoggingInstalled(start.store, installed) && Launched(cr, sole, start, n, c.log, c.store)
    requires AllDown(cr, sole, c.Now(), Everything)
    modifies c
    ensures Progress(cr, sole, start, n, old(c.log), old(c.Now()), c.log, c.Now())
    ensures ok ==> LoggingSubscription() !in c.store
    ensures cr.ns != LoggingNs ==> OperatorCsvs(c.store, cr.ns) == OperatorCsvs(old(c.store), cr.ns)
    ensures c.Reliable() ==> ok
    ensures c.Calm(old(c.workloads), c.workloads)
  {
    var ack := EraseOne(c, cr, LoggingSubscription(), sole, start, n);
    if ack != Failed {
      ghost var mid, upTo := c.Now(), c.log;
      ack := EraseOne(c, cr, Key(Csv, LoggingNs, installed), sole, start, n);
      ProgressOn(cr, sole, start, n, old(c.log), old(c.Now()), upTo, mid, c.log, c.Now());
    }
    ok := ack != Failed;
  }
}
