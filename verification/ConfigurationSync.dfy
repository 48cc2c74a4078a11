/**
 The Configuration stage as a whole: the gate, then the phases of a sync one after the other. What the
 phases establish one by one holds together at the end, and what each keeps at every API call holds
 throughout.
 */
module ConfigurationSync {
  import opened Kube
  import opened Observability
  import opened Stack
  import opened SyncEngine
  import opened SyncGate
  import opened Resolution
  import TokenExpiry
  import Observatoria
  import TokenRefreshers
  import AlertmanagerConfig
  import Collectors
  import ResourceSync
  import Dashboards
  import Promtail

  /** What lies outside the cluster: parsers, the Dex endpoint, downloads, templates and the depth of the stack. */
  datatype World = World(
    read: Obj -> Option<Index>,
    parses: string -> bool,
    dex: Observatoria.Dex,
    fetch: ResourceSync.Fetch,
    download: Dashboards.Download,
    template: Promtail.Template,
    hash: string -> string,
    yaml: AlertmanagerConfig.AlertConfig -> string,
    federation: bool,
    depth: nat)

  /** What the first phases settle and the later ones leave alone: proxies, secrets and the stack's custom resources. */
  const Kept := {Deployment, NetworkPolicy, Service, Secret, Prometheus, Alertmanager, Grafana}

  const BesideProxies := {DaemonSet, GrafanaDashboard, PrometheusRule, PodMonitor}
  const BesideDashboards := Kept + {ConfigMap, DaemonSet, PrometheusRule, PodMonitor}
  const BesideRules := Kept + {ConfigMap, DaemonSet, GrafanaDashboard}
  const BesideMonitoring := Kept + {ConfigMap, DaemonSet}
  const BesidePromtail := Kept + {GrafanaDashboard, PrometheusRule, PodMonitor}

  // ---------- Coverage through the phases ----------

  /** If the proxies were covered at `start`, they are after every call since, and now. */
  ghost predicate Guarded(start: Store, n: nat, log: seq<Step>, now: Store) {
    && n <= |log|
    && (TokenRefreshers.Covered(start) ==> TokenRefreshers.Covered(now) && TokenRefreshers.CoveredThroughout(log, n))
  }

  lemma CoverFramed(a: Store, b: Store, kinds: set<Kind>)
    requires SameKinds(a, b, kinds) && ProxyKinds <= kinds && TokenRefreshers.Covered(a)
    ensures TokenRefreshers.Covered(b)
  {
  }

  lemma GuardedAside(start: Store, n: nat, before: seq<Step>, a: Store, log: seq<Step>, b: Store, kinds: set<Kind>)
    requires Guarded(start, n, before, a) && before <= log && ProxyKinds <= kinds
    requires Spares(log, |before|, a, kinds) && SameKinds(a, b, kinds)
    ensures Guarded(start, n, log, b)
  {
    if TokenRefreshers.Covered(start) {
      CoverFramed(a, b, kinds);
      forall i | n <= i < |log| ensures TokenRefreshers.Covered(log[i].post.store) {
        if i < |before| {
          assert log[i] == before[i];
        } else {
          CoverFramed(a, log[i].post.store, kinds);
        }
      }
    }
  }

  lemma GuardedOn(start: Store, n: nat, before: seq<Step>, a: Store, log: seq<Step>, b: Store)
    requires Guarded(start, n, before, a) && before <= log && Guarded(a, |before|, log, b)
    ensures Guarded(start, n, log, b)
  {
    if TokenRefreshers.Covered(start) {
      forall i | n <= i < |log| ensures TokenRefreshers.Covered(log[i].post.store) {
        if i < |before| { assert log[i] == before[i]; }
      }
    }
  }

  // ---------- The stack's own resources ----------

  function BlackBoxConfig(cr: Cr): Key { Key(ConfigMap, cr.OperatorNs(), "black-box-config") }

  /** What is written between the proxies and the monitoring resources, in order. */
  function StackWrites(cr: Cr): seq<Key> {
    [PrometheusScrapeConfig(cr), BlackBoxConfig(cr), AlertmanagerCr(cr), PrometheusCr(cr)]
    + if cr.Descoped() then [] else [GrafanaCr(cr)]
  }

  /** What they are created with: the map carries the operator's label, the others no more than a name. */
  function StackTemplate(cr: Cr): Key -> Obj {
    (k: Key) => if k == BlackBoxConfig(cr) then Blank.(labels := ManagedBy) else Blank
  }

  /** What is written of the stack: custom resources, secrets, the labelled map. */
  function StackMark(cr: Cr): (Key, Obj) -> bool {
    (k: Key, o: Obj) => k == AlertmanagerSecret(cr) || (k in StackWrites(cr) && (k == BlackBoxConfig(cr) ==> Matches(o, ManagedBy)))
  }

  /** All that a sync writes. */
  function SyncMark(cr: Cr): (Key, Obj) -> bool {
    (k: Key, o: Obj) =>
      || TokenExpiry.TokenMark(cr.ns)(k, o)
      || TokenRefreshers.ProxyMark(cr.OperatorNs())(k, o)
      || StackMark(cr)(k, o)
      || (!cr.Descoped() && ResourceSync.FileMark(GrafanaDashboard, cr.ns)(k, o))
      || ResourceSync.FileMark(PrometheusRule, cr.OperatorNs())(k, o)
      || ResourceSync.FileMark(PodMonitor, cr.OperatorNs())(k, o)
      || k == GeneratedRule(cr)
      || Promtail.PromtailMark(cr.ns)(k, o)
  }

  /** The secrets among them, and Alertmanager's configuration. */
  function StackSecrets(cr: Cr): set<Key> { {AlertmanagerSecret(cr), PrometheusScrapeConfig(cr)} }

  ghost predicate SecretsAgree(a: Store, b: Store, but: set<Key>) {
    forall k: Key :: k.kind == Secret && k !in but ==> Observatoria.Lookup(a, k) == Observatoria.Lookup(b, k)
  }

  /** Since the log had `n` entries nothing was touched but objects aside from the synced kinds; they bear the mark, and only `secret` is a secret. */
  ghost predicate Aside(a: Store, n: nat, log: seq<Step>, b: Store, secret: Key, mark: (Key, Obj) -> bool) {
    Spares(log, n, a, SyncedKinds) && SameKinds(a, b, SyncedKinds) && SecretsAgree(a, b, {secret}) && Adds(a, b, mark)
  }

  lemma AsideOn(a: Store, n: nat, log: seq<Step>, b: Store, step: Step, secret: Key, mark: (Key, Obj) -> bool, k: Key, o: Obj)
    requires Aside(a, n, log, b, secret, mark) && (step.post.store == b || (k !in b && step.post.store == b[k := o]))
    requires k.kind !in SyncedKinds && (k.kind == Secret ==> k == secret) && mark(k, o)
    ensures Aside(a, n, log + [step], step.post.store, secret, mark)
  {
    AddsPut(a, b, k, o, mark);
  }

  method WriteAll(c: Cluster, ks: seq<Key>, template: Key -> Obj, ghost secret: Key, ghost mark: (Key, Obj) -> bool) returns (ok: bool)
    requires forall i :: 0 <= i < |ks| ==> ks[i].kind !in SyncedKinds && mark(ks[i], template(ks[i]))
    requires forall i :: 0 <= i < |ks| && ks[i].kind == Secret ==> ks[i] == secret
    modifies c
    ensures old(c.log) <= c.log && Aside(old(c.store), |old(c.log)|, c.log, c.store, secret, mark)
    ensures ok ==> forall i :: 0 <= i < |ks| ==> ks[i] in c.store
    ensures c.Reliable() ==> ok
  {
    ok := true;
    for i := 0 to |ks|
      invariant old(c.log) <= c.log && ok && Aside(old(c.store), |old(c.log)|, c.log, c.store, secret, mark)
      invariant forall j :: 0 <= j < i ==> ks[j] in c.store
    {
      ghost var log, s := c.log, c.store;
      ok := c.CreateOrUpdateFrom(ks[i], template(ks[i]), (o: Obj) => o);
      AsideOn(old(c.store), |old(c.log)|, log, s, Step(Snapshot(s, c.workloads), Put(ks[i]), c.Now()), secret, mark, ks[i], template(ks[i]));
      if !ok { break; }
    }
  }

  lemma StackSecretsApart(cr: Cr)
    ensures AlertmanagerSecret(cr) != PrometheusScrapeConfig(cr)
    ensures TokenRefreshers.OidcSecret(cr) !in StackSecrets(cr)
  {
    assert AlertmanagerSecret(cr).name[1] == 'l' && PrometheusScrapeConfig(cr).name[1] == 'd' && TokenRefreshers.OidcSecret(cr).name[1] == 'b';
  }

  lemma StackIsAside(cr: Cr)
    ensures forall i :: 0 <= i < |StackWrites(cr)| ==> StackWrites(cr)[i].kind !in SyncedKinds
    ensures forall i :: 0 <= i < |StackWrites(cr)| && StackWrites(cr)[i].kind == Secret ==> StackWrites(cr)[i] == PrometheusScrapeConfig(cr)
    ensures forall i :: 0 <= i < |StackWrites(cr)| ==> StackMark(cr)(StackWrites(cr)[i], StackTemplate(cr)(StackWrites(cr)[i]))
  {
  }

  /** The custom resources, what Prometheus is to scrape beyond them, and the configuration of the blackbox exporter. */
  predicate StackWritten(cr: Cr, s: Store) {
    && StackPresent(cr, s)
    && Key(Secret, cr.OperatorNs(), "additional-scrape-configs") in s && Key(ConfigMap, cr.OperatorNs(), "black-box-config") in s
  }

  ghost predicate MapsStay(a: Store, b: Store) {
    forall k :: k in a && k.kind == ConfigMap ==> k in b
  }

  lemma StackFound(cr: Cr, s: Store)
    requires forall i :: 0 <= i < |StackWrites(cr)| ==> StackWrites(cr)[i] in s
    ensures StackWritten(cr, s)
  {
    var ks := StackWrites(cr);
    assert ks[0] == PrometheusScrapeConfig(cr) && ks[1] == BlackBoxConfig(cr);
    assert ks[2] == AlertmanagerCr(cr) && ks[3] == PrometheusCr(cr) && (!cr.Descoped() ==> ks[4] == GrafanaCr(cr));
  }

  predicate WritesAlertmanagerSecret(cr: Cr) { !cr.ExternalSyncDisabled() && !cr.HasAlertmanagerConfigSecret() }

  /** External sync is on and the custom resource brings no configuration of its own. */
  predicate CompilesConfig(cr: Cr) {
    cr.selfContained.Some? ==> cr.selfContained.value.disableRepoSync != Some(true) && cr.selfContained.value.alertmanagerConfigSecret == ""
  }

  /**
   Alertmanager's secret holds the text of what the specification says for the secrets of the indexes: those
   that could be read, which in a healthy cluster is all of them. They are still as they were read, unless an
   index names one that the sync itself writes.
   */
  ghost predicate AlertmanagerConfigured(cr: Cr, w: World, indexes: seq<Index>, healthy: bool, s: Store) {
    exists from, got, config ::
      && AlertmanagerConfig.IsConfig(from, cr, indexes, got, config)
      && (healthy ==> got == AlertmanagerConfig.AllReadable(from, cr, indexes))
      && SecretsAgree(from, s, StackSecrets(cr))
      && AlertmanagerText(cr, s) == Some(w.yaml(config))
  }

  function AlertmanagerText(cr: Cr, s: Store): Option<string> {
    var k := AlertmanagerSecret(cr);
    if k in s && "alertmanager.yaml" in s[k].data then Some(s[k].data["alertmanager.yaml"]) else None
  }

  /** No index names a secret that the sync itself writes. */
  ghost predicate NamesNoStackSecret(cr: Cr, indexes: seq<Index>) {
    && (AlertmanagerConfig.MailSecret(cr, indexes).Some? ==> AlertmanagerConfig.MailSecret(cr, indexes).value !in StackSecrets(cr))
    && forall i :: 0 <= i < |indexes| ==> StackSecrets(cr) !! AlertmanagerConfig.NamedSecrets(cr, indexes[i])
  }

  /** Then the store a healthy sync leaves decides the text of Alertmanager's configuration, down to the last secret. */
  lemma AlertmanagerDecided(cr: Cr, w: World, indexes: seq<Index>, s: Store)
    requires AlertmanagerConfigured(cr, w, indexes, true, s) && NamesNoStackSecret(cr, indexes)
    ensures AlertmanagerConfig.Dereferenceable(cr, indexes) && AlertmanagerConfig.GlobalOf(s, cr, indexes).Some?
    ensures
      var entries := AlertmanagerConfig.EmitAll(cr, indexes, AlertmanagerConfig.AllReadable(s, cr, indexes));
      AlertmanagerText(cr, s) == Some(w.yaml(AlertmanagerConfig.Compiled(AlertmanagerConfig.GlobalOf(s, cr, indexes).value, entries)))
  {
    var from, got, config :|
      && AlertmanagerConfig.IsConfig(from, cr, indexes, got, config)
      && got == AlertmanagerConfig.AllReadable(from, cr, indexes)
      && SecretsAgree(from, s, StackSecrets(cr))
      && AlertmanagerText(cr, s) == Some(w.yaml(config));
    GlobalAlike(cr, indexes, from, s);
    forall i | 0 <= i < |indexes| ensures AlertmanagerConfig.Readable(from, cr, indexes[i]) == AlertmanagerConfig.Readable(s, cr, indexes[i]) {
      ReadableAlike(cr, indexes[i], from, s, StackSecrets(cr));
    }
    assert AlertmanagerConfig.AllReadable(from, cr, indexes) == AlertmanagerConfig.AllReadable(s, cr, indexes);
  }

  lemma GlobalAlike(cr: Cr, indexes: seq<Index>, a: Store, b: Store)
    requires AlertmanagerConfig.Dereferenceable(cr, indexes) && NamesNoStackSecret(cr, indexes) && SecretsAgree(a, b, StackSecrets(cr))
    ensures AlertmanagerConfig.GlobalOf(a, cr, indexes) == AlertmanagerConfig.GlobalOf(b, cr, indexes)
  {
    var mail := AlertmanagerConfig.MailSecret(cr, indexes);
    if mail.Some? { assert Observatoria.Lookup(a, mail.value) == Observatoria.Lookup(b, mail.value); }
  }

  lemma ReadableAlike(cr: Cr, index: Index, a: Store, b: Store, but: set<Key>)
    requires SecretsAgree(a, b, but) && but !! AlertmanagerConfig.NamedSecrets(cr, index)
    ensures AlertmanagerConfig.Readable(a, cr, index) == AlertmanagerConfig.Readable(b, cr, index)
  {
    forall k | k in AlertmanagerConfig.NamedSecrets(cr, index) ensures Observatoria.Lookup(a, k) == Observatoria.Lookup(b, k) {
      assert k.kind == Secret;
    }
    if index.config.Some? && index.config.value.alertmanager.Some? {
      var am := index.config.value.alertmanager.value;
      assert Key(Secret, AlertmanagerConfig.SecretNs(cr, am.pagerDutyNs), am.pagerDutySecret) in AlertmanagerConfig.NamedSecrets(cr, index);
      assert Key(Secret, AlertmanagerConfig.SecretNs(cr, am.snitchNs), am.snitchSecret) in AlertmanagerConfig.NamedSecrets(cr, index);
    }
  }

  /** The mail secret, where one is needed, is there. */
  predicate MailReady(cr: Cr, indexes: seq<Index>, s: Store) {
    AlertmanagerConfig.MailSecret(cr, indexes).Some? ==> AlertmanagerConfig.MailSecret(cr, indexes).value in s
  }

  /** The Alertmanager secret, unless the custom resource names its own; no usable first index means a crash. */
  method WriteAlertmanagerSecret(c: Cluster, cr: Cr, w: World, indexes: seq<Index>) returns (out: Outcome)
    modifies c
    ensures old(c.log) <= c.log
    ensures Spares(c.log, |old(c.log)|, old(c.store), SyncedKinds) && SameKinds(old(c.store), c.store, SyncedKinds)
    ensures SecretsAgree(old(c.store), c.store, {AlertmanagerSecret(cr)})
    ensures Adds(old(c.store), c.store, StackMark(cr))
    ensures out.Crashed? <==> WritesAlertmanagerSecret(cr) && !AlertmanagerConfig.Dereferenceable(cr, indexes)
    ensures out.Completed? && WritesAlertmanagerSecret(cr) ==> AlertmanagerConfigured(cr, w, indexes, c.Reliable(), c.store)
    ensures c.Reliable() && out.Errored? ==> WritesAlertmanagerSecret(cr) && !MailReady(cr, indexes, old(c.store))
  {
    out := Completed;
    if WritesAlertmanagerSecret(cr) {
      var config;
      ghost var got, marks;
      config, got, marks := AlertmanagerConfig.CompileConfig(c, cr, indexes);
      ghost var from := c.store;
      match config {
        case Panic => out := Crashed;
        case Error => out := Errored;
        case Built(compiled) =>
          var ok := WriteAlertmanagerText(c, cr, w.yaml(compiled));
          out := if ok then Completed else Errored;
          assert AlertmanagerConfig.IsConfig(from, cr, indexes, got, compiled);
      }
    }
  }

  method WriteAlertmanagerText(c: Cluster, cr: Cr, text: string) returns (ok: bool)
    modifies c
    ensures old(c.log) <= c.log
    ensures Spares(c.log, |old(c.log)|, old(c.store), SyncedKinds) && SameKinds(old(c.store), c.store, SyncedKinds)
    ensures SecretsAgree(old(c.store), c.store, {AlertmanagerSecret(cr)})
    ensures Adds(old(c.store), c.store, StackMark(cr))
    ensures ok ==> AlertmanagerText(cr, c.store) == Some(text)
    ensures c.Reliable() ==> ok
  {
    ok := c.CreateOrUpdate(AlertmanagerSecret(cr), (o: Obj) => o.(data := o.data["alertmanager.yaml" := text]));
  }

  // ---------- Rules and pod monitors ----------

  lemma SafeSpares(a: Store, b: Store, kind: Kind, ns: string, names: set<string>, kinds: set<Kind>)
    requires ResourceSync.Safe(a, b, kind, ns, names) && kind !in kinds
    ensures SameKinds(a, b, kinds)
  {
    forall k: Key | k.kind in kinds ensures (k in a <==> k in b) && (k in a && k in b ==> a[k] == b[k]) {
      assert !ResourceSync.Ours(k, kind, ns);
    }
  }

  lemma AllSafeSpares(log: seq<Step>, n: nat, a: Store, kind: Kind, ns: string, names: set<string>, kinds: set<Kind>)
    requires ResourceSync.AllSafe(log, n, a, kind, ns, names) && kind !in kinds
    ensures Spares(log, n, a, kinds)
  {
    forall i | n <= i < |log| ensures SameKinds(a, log[i].post.store, kinds) {
      SafeSpares(a, log[i].post.store, kind, ns, names, kinds);
    }
  }

  method SyncKind(c: Cluster, kind: Kind, ns: string, infos: seq<Collectors.ResourceInfo>, desired: Collectors.ResourceInfo -> Option<Obj>, ghost kinds: set<Kind>)
    returns (ok: bool)
    requires kind !in kinds && Collectors.NamesDistinct(infos) && ResourceSync.Labelled(desired)
    modifies c
    ensures old(c.log) <= c.log
    ensures Spares(c.log, |old(c.log)|, old(c.store), kinds) && SameKinds(old(c.store), c.store, kinds)
    ensures Adds(old(c.store), c.store, ResourceSync.FileMark(kind, ns))
    ensures ok ==> ResourceSync.InSync(c.store, kind, ns, infos, desired)
    ensures c.Reliable() && ResourceSync.Available(infos, desired) ==> ok
  {
    ok := ResourceSync.SyncResources(c, kind, ns, infos, desired);
    ghost var names := ResourceSync.Names(infos);
    SafeSpares(old(c.store), c.store, kind, ns, names, kinds);
    AllSafeSpares(c.log, |old(c.log)|, old(c.store), kind, ns, names, kinds);
  }

  lemma WrittenFramed(a: Store, b: Store, kind: Kind, ns: string, infos: seq<Collectors.ResourceInfo>, desired: Collectors.ResourceInfo -> Option<Obj>, kinds: set<Kind>)
    requires ResourceSync.AllWritten(a, kind, ns, infos, desired) && SameKinds(a, b, kinds) && kind in kinds
    ensures ResourceSync.AllWritten(b, kind, ns, infos, desired)
  {
    forall i | 0 <= i < |infos| ensures ResourceSync.Written(b, kind, ns, infos[i], desired) {
      assert ResourceSync.Written(a, kind, ns, infos[i], desired);
    }
  }

  lemma InSyncFramed(a: Store, b: Store, kind: Kind, ns: string, infos: seq<Collectors.ResourceInfo>, desired: Collectors.ResourceInfo -> Option<Obj>, kinds: set<Kind>)
    requires ResourceSync.InSync(a, kind, ns, infos, desired) && SameKinds(a, b, kinds) && kind in kinds
    ensures ResourceSync.InSync(b, kind, ns, infos, desired)
  {
    WrittenFramed(a, b, kind, ns, infos, desired, kinds);
  }

  function RequestedDashboards(indexes: seq<Index>): seq<Collectors.ResourceInfo> {
    Collectors.Collect(Collectors.DashboardEntries, [], indexes)
  }

  /** The dashboards of the indexes, except in descoped mode. */
  method SyncDashboards(c: Cluster, cr: Cr, w: World, indexes: seq<Index>, ghost kinds: set<Kind>) returns (ok: bool)
    requires GrafanaDashboard !in kinds
    modifies c
    ensures old(c.log) <= c.log
    ensures Spares(c.log, |old(c.log)|, old(c.store), kinds) && SameKinds(old(c.store), c.store, kinds)
    ensures Adds(old(c.store), c.store, SyncMark(cr))
    ensures ok && !cr.Descoped() ==> DashboardsSettled(cr, w, indexes, old(c.store), c.store)
    ensures c.Reliable() && (cr.Descoped() || Dashboards.NoneFails(w.download, RequestedDashboards(indexes))) ==> ok
  {
    ok := true;
    if !cr.Descoped() {
      var dashboards := Collectors.GetUniqueDashboards(indexes);
      Collectors.CollectDistinct(Collectors.DashboardEntries, indexes);
      ok := Dashboards.SyncDashboards(c, cr.ns, dashboards, w.download);
      ghost var names := ResourceSync.Names(dashboards);
      SafeSpares(old(c.store), c.store, GrafanaDashboard, cr.ns, names, kinds);
      AllSafeSpares(c.log, |old(c.log)|, old(c.store), GrafanaDashboard, cr.ns, names, kinds);
      AddsWiden(old(c.store), c.store, ResourceSync.FileMark(GrafanaDashboard, cr.ns), SyncMark(cr));
    }
  }

  /** The requested dashboards that were there or can be created, and those created as they were fetched. */
  ghost predicate DashboardsSettled(cr: Cr, w: World, indexes: seq<Index>, a: Store, b: Store) {
    var infos := RequestedDashboards(indexes);
    var files := Dashboards.Creatable(w.download, infos);
    && Dashboards.Present(b, cr.ns) == Dashboards.Present(a, cr.ns) * ResourceSync.Names(infos) + ResourceSync.Names(files)
    && ResourceSync.AllWritten(b, GrafanaDashboard, cr.ns, files, Dashboards.DashboardObject(w.download))
  }

  ghost predicate MonitoringInSync(cr: Cr, w: World, indexes: seq<Index>, s: Store) {
    && ResourceSync.InSync(s, PrometheusRule, cr.OperatorNs(), Collectors.CollectRules([], indexes), ResourceSync.RuleObject(w.fetch))
    && ResourceSync.InSync(s, PodMonitor, cr.OperatorNs(), Collectors.CollectMonitors([], indexes), ResourceSync.MonitorObject(w.fetch))
  }

  /** The file at this path of an index's repository, at the index's tag and with its token. */
  function FileAt(w: World, index: Index, path: string): Option<Obj> {
    w.fetch(index.baseUrl + "/" + path, index.tag, index.accessToken)
  }

  ghost predicate RuleFrom(w: World, index: Index, path: string, name: string, o: Obj) {
    && index.config.Some? && index.config.value.prometheus.Some? && path in index.config.value.prometheus.value.rules
    && name == Collectors.NameFromUrl(path) && FileAt(w, index, path).Some?
    && ResourceSync.RulesOf(FileAt(w, index, path).value, index.id, o)
  }

  ghost predicate MonitorFrom(w: World, index: Index, path: string, name: string, o: Obj) {
    && index.config.Some? && index.config.value.prometheus.Some? && path in index.config.value.prometheus.value.podMonitors
    && name == Collectors.NameFromUrl(path) && FileAt(w, index, path).Some?
    && var file := FileAt(w, index, path).value;
    && ResourceSync.Managed(file.labels, o.labels) && o.data == file.data && o.groups == file.groups
  }

  /**
   Every rule object in the operator's namespace is a rule file that some index lists, under the file's name,
   as it was fetched from that index's repository and with that index's id on its rules.
   */
  lemma RulesAreFromIndexes(cr: Cr, w: World, indexes: seq<Index>, s: Store, name: string)
    requires MonitoringInSync(cr, w, indexes, s) && Key(PrometheusRule, cr.OperatorNs(), name) in s
    ensures exists i, path :: 0 <= i < |indexes| && RuleFrom(w, indexes[i], path, name, s[Key(PrometheusRule, cr.OperatorNs(), name)])
  {
    var infos := Collectors.CollectRules([], indexes);
    var info := ResourceSync.RequestedAs(s, PrometheusRule, cr.OperatorNs(), infos, ResourceSync.RuleObject(w.fetch), name);
    ResourceSync.RuleAsFetched(w.fetch, info);
    var i, path := Collectors.RuleSource(indexes, info);
    assert RuleFrom(w, indexes[i], path, name, s[Key(PrometheusRule, cr.OperatorNs(), name)]);
  }

  /** The same for pod monitors. */
  lemma MonitorsAreFromIndexes(cr: Cr, w: World, indexes: seq<Index>, s: Store, name: string)
    requires MonitoringInSync(cr, w, indexes, s) && Key(PodMonitor, cr.OperatorNs(), name) in s
    ensures exists i, path :: 0 <= i < |indexes| && MonitorFrom(w, indexes[i], path, name, s[Key(PodMonitor, cr.OperatorNs(), name)])
  {
    var infos := Collectors.CollectMonitors([], indexes);
    var info := ResourceSync.RequestedAs(s, PodMonitor, cr.OperatorNs(), infos, ResourceSync.MonitorObject(w.fetch), name);
    ResourceSync.MonitorAsFetched(w.fetch, info);
    var i, path := Collectors.MonitorSource(indexes, info);
    assert MonitorFrom(w, indexes[i], path, name, s[Key(PodMonitor, cr.OperatorNs(), name)]);
  }

  /**
   A requested dashboard whose file could be fetched from a path ending in ".json" is in the namespace as the
   file's text; one whose path ends in ".yaml", as the object in it.
   */
  lemma DashboardsAreFromFiles(cr: Cr, w: World, indexes: seq<Index>, a: Store, b: Store, info: Collectors.ResourceInfo,
                               path: string, text: string, extension: string)
    requires DashboardsSettled(cr, w, indexes, a, b) && info in RequestedDashboards(indexes)
    requires w.download.pathOf(info.url) == Some(path) && w.download.body(info.url, info.tag, info.accessToken) == Some(text)
    requires Dashboards.Extends(path, extension)
    ensures extension == "json" ==>
      var k := Key(GrafanaDashboard, cr.ns, info.name); k in b && b[k] == Obj(ManagedBy, map["json" := text], [])
    ensures extension == "yaml" && w.download.parse(text).Some? ==>
      var k := Key(GrafanaDashboard, cr.ns, info.name);
      k in b && b[k].data == w.download.parse(text).value.data && ResourceSync.Managed(w.download.parse(text).value.labels, b[k].labels)
  {
    Dashboards.WrittenByExtension(w.download, info, path, text, extension);
    if Dashboards.DashboardObject(w.download)(info).Some? {
      var files := Dashboards.Creatable(w.download, RequestedDashboards(indexes));
      Dashboards.CreatableComplete(w.download, RequestedDashboards(indexes), info);
      var i :| 0 <= i < |files| && files[i] == info;
      assert ResourceSync.Written(b, GrafanaDashboard, cr.ns, files[i], Dashboards.DashboardObject(w.download));
    }
  }

  /** Every file the indexes list can be fetched and parsed. */
  ghost predicate FilesAvailable(cr: Cr, w: World, indexes: seq<Index>) {
    && (cr.Descoped() || Dashboards.NoneFails(w.download, RequestedDashboards(indexes)))
    && ResourceSync.Available(Collectors.CollectRules([], indexes), ResourceSync.RuleObject(w.fetch))
    && ResourceSync.Available(Collectors.CollectMonitors([], indexes), ResourceSync.MonitorObject(w.fetch))
  }

  function GeneratedRule(cr: Cr): Key { Key(PrometheusRule, cr.OperatorNs(), "generated-deadmansswitch") }

  method SyncMonitoring(c: Cluster, cr: Cr, w: World, indexes: seq<Index>) returns (ok: bool)
    modifies c
    ensures old(c.log) <= c.log
    ensures Spares(c.log, |old(c.log)|, old(c.store), BesideMonitoring) && SameKinds(old(c.store), c.store, BesideMonitoring)
    ensures Adds(old(c.store), c.store, SyncMark(cr))
    ensures ok ==> FilesSettled(cr, w, indexes, old(c.store), c.store)
    ensures c.Reliable() && (cr.ExternalSyncDisabled() || FilesAvailable(cr, w, indexes)) ==> ok
  {
    if cr.ExternalSyncDisabled() {
      ok := c.CreateOrUpdate(GeneratedRule(cr), (o: Obj) => o);
    } else {
      ok := SyncDashboards(c, cr, w, indexes, BesideDashboards);
      if ok {
        ghost var before, s := c.log, c.store;
        ok := SyncRules(c, cr, w, indexes, BesideRules);
        AddsOn(old(c.store), s, c.store, SyncMark(cr));
        SparesOn(|old(c.log)|, before, c.log, old(c.store), s, c.store, BesideMonitoring);
        if !cr.Descoped() { DashboardsFramed(cr, w, indexes, old(c.store), s, c.store, BesideRules); }
      }
    }
  }

  /** Dashboards, rules and pod monitors; without external sync, the generated rule. */
  ghost predicate FilesSettled(cr: Cr, w: World, indexes: seq<Index>, a: Store, b: Store) {
    if cr.ExternalSyncDisabled() then GeneratedRule(cr) in b
    else MonitoringInSync(cr, w, indexes, b) && (!cr.Descoped() ==> DashboardsSettled(cr, w, indexes, a, b))
  }

  lemma DashboardsFramed(cr: Cr, w: World, indexes: seq<Index>, a: Store, b: Store, d: Store, kinds: set<Kind>)
    requires DashboardsSettled(cr, w, indexes, a, b) && SameKinds(b, d, kinds) && GrafanaDashboard in kinds
    ensures DashboardsSettled(cr, w, indexes, a, d)
  {
    PresentFramed(b, d, kinds, cr.ns);
    var files := Dashboards.Creatable(w.download, RequestedDashboards(indexes));
    WrittenFramed(b, d, GrafanaDashboard, cr.ns, files, Dashboards.DashboardObject(w.download), kinds);
  }

  method SyncRules(c: Cluster, cr: Cr, w: World, indexes: seq<Index>, ghost kinds: set<Kind>) returns (ok: bool)
    requires PrometheusRule !in kinds && PodMonitor !in kinds
    modifies c
    ensures old(c.log) <= c.log
    ensures Spares(c.log, |old(c.log)|, old(c.store), kinds) && SameKinds(old(c.store), c.store, kinds)
    ensures Adds(old(c.store), c.store, SyncMark(cr))
    ensures ok ==> MonitoringInSync(cr, w, indexes, c.store)
    ensures c.Reliable() && FilesAvailable(cr, w, indexes) ==> ok
  {
    var rules := Collectors.GetUniqueRules(indexes);
    Collectors.CollectDistinct(Collectors.RuleEntries, indexes);
    ResourceSync.FilesLabelled(w.fetch);
    ok := SyncKind(c, PrometheusRule, cr.OperatorNs(), rules, ResourceSync.RuleObject(w.fetch), kinds);
    AddsWiden(old(c.store), c.store, ResourceSync.FileMark(PrometheusRule, cr.OperatorNs()), SyncMark(cr));
    if ok {
      ghost var before, s, wide := c.log, c.store, kinds + {PrometheusRule};
      var monitors := Collectors.GetUniquePodMonitors(indexes);
      MonitorsDistinct(indexes);
      ok := SyncKind(c, PodMonitor, cr.OperatorNs(), monitors, ResourceSync.MonitorObject(w.fetch), wide);
      InSyncFramed(s, c.store, PrometheusRule, cr.OperatorNs(), rules, ResourceSync.RuleObject(w.fetch), wide);
      SparesOn(|old(c.log)|, before, c.log, old(c.store), s, c.store, kinds);
      AddsWiden(s, c.store, ResourceSync.FileMark(PodMonitor, cr.OperatorNs()), SyncMark(cr));
      AddsOn(old(c.store), s, c.store, SyncMark(cr));
    }
  }

  lemma MonitorsDistinct(indexes: seq<Index>)
    ensures Collectors.NamesDistinct(Collectors.CollectMonitors([], indexes))
  {
    Collectors.MonitorsAreFirsts(indexes);
  }

  // ---------- The halves of a sync ----------

  lemma RefreshersFramed(a: Store, b: Store, kinds: set<Kind>, ns: string)
    requires SameKinds(a, b, kinds) && Deployment in kinds
    ensures TokenRefreshers.Refreshers(a, ns) == TokenRefreshers.Refreshers(b, ns)
    ensures Service in kinds ==> TokenRefreshers.Served(a, ns) == TokenRefreshers.Served(b, ns)
  {
  }

  lemma PresentFramed(a: Store, b: Store, kinds: set<Kind>, ns: string)
    requires SameKinds(a, b, kinds) && GrafanaDashboard in kinds
    ensures Dashboards.Present(a, ns) == Dashboards.Present(b, ns)
  {
  }

  lemma DaemonsFramed(a: Store, b: Store, kinds: set<Kind>, ns: string)
    requires SameKinds(a, b, kinds) && DaemonSet in kinds
    ensures Promtail.Daemons(a, ns) == Promtail.Daemons(b, ns)
  {
  }

  /** Token secrets and observatoria. */
  method ResolveAll(c: Cluster, cr: Cr, w: World, now: int, indexes: seq<Index>) returns (out: Outcome, resolved: seq<Index>)
    modifies c
    ensures old(c.log) <= c.log
    ensures Spares(c.log, |old(c.log)|, old(c.store), SyncedKinds) && SameKinds(old(c.store), c.store, SyncedKinds)
    ensures SecretsAgree(old(c.store), c.store, TokenArea(old(c.store), cr, indexes))
    ensures Adds(old(c.store), c.store, TokenExpiry.TokenMark(cr.ns))
    ensures out.Completed? ==> AllFollow(old(c.store), cr, w.depth, indexes, resolved)
    ensures c.Reliable() && out.Completed? ==> AsExpected(old(c.store), cr, w.depth, indexes, resolved)
    ensures c.Reliable() && Resolvable(old(c.store), cr, w.depth, indexes) ==> out.Completed?
  {
    resolved, out := [], Errored;
    var ok := DeleteUnrequestedCredentialSecrets(c, cr, indexes);
    if ok {
      ghost var before, s := c.log, c.store;
      var crashed;
      crashed, resolved := ResolveIndexes(c, cr, w.dex, w.depth, now, indexes, old(c.store));
      AddsOn(old(c.store), s, c.store, TokenExpiry.TokenMark(cr.ns));
      SparesOn(|old(c.log)|, before, c.log, old(c.store), s, c.store, SyncedKinds);
      out := if crashed then Crashed else Completed;
    }
  }

  lemma OnlyProxiesChanged(a: Store, b: Store)
    requires TokenRefreshers.OnlyProxyKindsChanged(a, b)
    ensures SameKinds(a, b, BesideProxies) && SecretsAgree(a, b, {})
  {
    forall k: Key | k.kind in BesideProxies + {Secret} ensures (k in a <==> k in b) && (k in a && k in b ==> a[k] == b[k]) {
      assert TokenRefreshers.SameAt(a, b, k);
    }
  }

  lemma SameKindsOn(a: Store, b: Store, d: Store, wide: set<Kind>, kinds: set<Kind>)
    requires SameKinds(a, b, wide) && SameKinds(b, d, kinds) && kinds <= wide
    ensures SameKinds(a, d, kinds)
  {
  }

  lemma SecretsAgreeOn(a: Store, b: Store, d: Store, but: set<Key>, more: set<Key>)
    requires SecretsAgree(a, b, but) && SecretsAgree(b, d, more)
    ensures SecretsAgree(a, d, but + more)
  {
  }

  /** The OAuth2 secret, the proxies and the policies stand as the token refreshers need them. */
  ghost predicate ProxiesFeasible(cr: Cr, w: World, s: Store, area: set<Key>, resolved: seq<Index>) {
    && TokenRefreshers.OidcSecret(cr) !in area
    && TokenRefreshers.DeploymentsJudged(s, cr, w.parses, resolved) && TokenRefreshers.Feasible(s, cr, w.parses, resolved)
  }

  lemma FeasibleAlike(cr: Cr, w: World, a: Store, b: Store, area: set<Key>, resolved: seq<Index>)
    requires ProxiesFeasible(cr, w, a, area, resolved) && SameKinds(a, b, SyncedKinds) && SecretsAgree(a, b, area)
    ensures TokenRefreshers.DeploymentsJudged(b, cr, w.parses, resolved) && TokenRefreshers.Feasible(b, cr, w.parses, resolved)
  {
    var ns, labels := cr.OperatorNs(), TokenRefreshers.ProxyLabels;
    assert Observatoria.Lookup(a, TokenRefreshers.OidcSecret(cr)) == Observatoria.Lookup(b, TokenRefreshers.OidcSecret(cr));
    assert Selected(a, Deployment, ns, labels) == Selected(b, Deployment, ns, labels);
    assert Selected(a, NetworkPolicy, ns, labels) == Selected(b, NetworkPolicy, ns, labels);
  }

  /** And then the proxies. */
  method SyncProxies(c: Cluster, cr: Cr, w: World, now: int, indexes: seq<Index>)
    returns (out: Outcome, resolved: seq<Index>)
    modifies c
    ensures old(c.log) <= c.log && Guarded(old(c.store), |old(c.log)|, c.log, c.store)
    ensures SameKinds(old(c.store), c.store, BesideProxies)
    ensures SecretsAgree(old(c.store), c.store, TokenArea(old(c.store), cr, indexes))
    ensures Adds(old(c.store), c.store, SyncMark(cr))
    ensures out.Completed? ==> AllFollow(old(c.store), cr, w.depth, indexes, resolved)
    ensures out.Completed? ==> ProxiesSettled(cr, w, resolved, old(c.store), c.store)
    ensures c.Reliable() && out.Completed? ==> AsExpected(old(c.store), cr, w.depth, indexes, resolved)
    ensures c.Reliable() && Resolvable(old(c.store), cr, w.depth, indexes) ==>
      && resolved == AllExpected(old(c.store), cr, w.depth, indexes)
      && (ProxiesFeasible(cr, w, old(c.store), TokenArea(old(c.store), cr, indexes), resolved) ==> out.Completed?)
  {
    ghost var start, n, before, area := c.store, |c.log|, c.log, TokenArea(c.store, cr, indexes);
    out, resolved := ResolveAll(c, cr, w, now, indexes);
    if c.Reliable() && Resolvable(start, cr, w.depth, indexes) { ExpectedAll(start, cr, w.depth, indexes, resolved); }
    GuardedAside(start, n, before, start, c.log, c.store, SyncedKinds);
    AddsWiden(start, c.store, TokenExpiry.TokenMark(cr.ns), SyncMark(cr));
    if out.Completed? {
      ghost var mid := c.store;
      out := SyncResolved(c, cr, w, resolved, start, n, area);
      AddsOn(start, mid, c.store, SyncMark(cr));
    } else {
      SameKindsOn(start, start, c.store, SyncedKinds, SyncedKinds);
    }
  }

  method SyncResolved(c: Cluster, cr: Cr, w: World, resolved: seq<Index>, ghost start: Store, ghost n: nat, ghost area: set<Key>) returns (out: Outcome)
    requires Guarded(start, n, c.log, c.store) && SameKinds(start, c.store, SyncedKinds) && SecretsAgree(start, c.store, area)
    modifies c
    ensures old(c.log) <= c.log && Guarded(start, n, c.log, c.store)
    ensures SameKinds(start, c.store, BesideProxies) && SecretsAgree(start, c.store, area)
    ensures Adds(old(c.store), c.store, SyncMark(cr))
    ensures out.Completed? ==> ProxiesSettled(cr, w, resolved, start, c.store)
    ensures c.Reliable() && ProxiesFeasible(cr, w, start, area, resolved) ==> out.Completed?
  {
    ghost var upTo, mid := c.log, c.store;
    RefreshersFramed(start, mid, SyncedKinds, cr.OperatorNs());
    if ProxiesFeasible(cr, w, start, area, resolved) { FeasibleAlike(cr, w, start, mid, area, resolved); }
    out := TokenRefreshers.SyncTokenRefreshers(c, cr, w.parses, resolved);
    GuardedOn(start, n, upTo, mid, c.log, c.store);
    OnlyProxiesChanged(mid, c.store);
    AddsWiden(mid, c.store, TokenRefreshers.ProxyMark(cr.OperatorNs()), SyncMark(cr));
    SameKindsOn(start, mid, c.store, SyncedKinds, BesideProxies);
    SecretsAgreeOn(start, mid, c.store, area, {});
    assert area + {} == area;
    assert Observatoria.Lookup(mid, TokenRefreshers.OidcSecret(cr)) == Observatoria.Lookup(c.store, TokenRefreshers.OidcSecret(cr));
  }

  /** Alertmanager's configuration and the custom resources of the stack. */
  method SyncStack(c: Cluster, cr: Cr, w: World, indexes: seq<Index>) returns (out: Outcome)
    modifies c
    ensures old(c.log) <= c.log
    ensures Spares(c.log, |old(c.log)|, old(c.store), SyncedKinds) && SameKinds(old(c.store), c.store, SyncedKinds)
    ensures SecretsAgree(old(c.store), c.store, StackSecrets(cr))
    ensures Adds(old(c.store), c.store, StackMark(cr))
    ensures out.Completed? ==> StackWritten(cr, c.store)
    ensures out.Completed? && WritesAlertmanagerSecret(cr) ==> AlertmanagerConfigured(cr, w, indexes, c.Reliable(), c.store)
    ensures c.Reliable() && StackFeasible(cr, w, indexes, old(c.store)) ==> out.Completed?
  {
    out := WriteAlertmanagerSecret(c, cr, w, indexes);
    if out.Completed? {
      ghost var before, s := c.log, c.store;
      var ok := WriteStack(c, cr, w);
      AddsOn(old(c.store), s, c.store, StackMark(cr));
      SparesOn(|old(c.log)|, before, c.log, old(c.store), s, c.store, SyncedKinds);
      SecretsAgreeOn(old(c.store), s, c.store, {AlertmanagerSecret(cr)}, {PrometheusScrapeConfig(cr)});
      if WritesAlertmanagerSecret(cr) { ConfiguredFramed(cr, w, indexes, c.Reliable(), s, c.store, {PrometheusScrapeConfig(cr)}); }
      out := if ok then Completed else Errored;
    }
  }

  method WriteStack(c: Cluster, cr: Cr, w: World) returns (ok: bool)
    modifies c
    ensures old(c.log) <= c.log
    ensures Spares(c.log, |old(c.log)|, old(c.store), SyncedKinds) && SameKinds(old(c.store), c.store, SyncedKinds)
    ensures SecretsAgree(old(c.store), c.store, {PrometheusScrapeConfig(cr)}) && AlertmanagerSecret(cr) != PrometheusScrapeConfig(cr)
    ensures Adds(old(c.store), c.store, StackMark(cr))
    ensures ok ==> StackWritten(cr, c.store)
    ensures c.Reliable() && w.federation ==> ok
  {
    StackIsAside(cr);
    StackSecretsApart(cr);
    ok := w.federation;
    if ok {
      ok := WriteAll(c, StackWrites(cr), StackTemplate(cr), PrometheusScrapeConfig(cr), StackMark(cr));
      if ok { StackFound(cr, c.store); }
    }
  }

  /** Alertmanager's configuration can be compiled and the federation patterns fetched. */
  ghost predicate StackFeasible(cr: Cr, w: World, indexes: seq<Index>, s: Store) {
    && w.federation
    && (WritesAlertmanagerSecret(cr) ==> AlertmanagerConfig.Dereferenceable(cr, indexes) && MailReady(cr, indexes, s))
  }

  lemma ConfiguredFramed(cr: Cr, w: World, indexes: seq<Index>, healthy: bool, a: Store, b: Store, but: set<Key>)
    requires AlertmanagerConfigured(cr, w, indexes, healthy, a)
    requires SecretsAgree(a, b, but) && but <= StackSecrets(cr) && AlertmanagerSecret(cr) !in but
    ensures AlertmanagerConfigured(cr, w, indexes, healthy, b)
  {
    var from, got, config :|
      && AlertmanagerConfig.IsConfig(from, cr, indexes, got, config)
      && (healthy ==> got == AlertmanagerConfig.AllReadable(from, cr, indexes))
      && SecretsAgree(from, a, StackSecrets(cr))
      && AlertmanagerText(cr, a) == Some(w.yaml(config));
    assert Observatoria.Lookup(a, AlertmanagerSecret(cr)) == Observatoria.Lookup(b, AlertmanagerSecret(cr));
    SecretsAgreeOn(from, a, b, StackSecrets(cr), but);
    assert StackSecrets(cr) + but == StackSecrets(cr);
  }

  lemma FramedSpares(a: Store, b: Store, cr: Cr)
    requires Promtail.Framed(a, b, cr)
    ensures SameKinds(a, b, BesidePromtail)
  {
  }

  /** The DaemonSets, by name; with distinct ids also their configuration. */
  ghost predicate DaemonsSettled(cr: Cr, w: World, indexes: seq<Index>, a: Store, b: Store) {
    && Promtail.Daemons(b, cr.ns) == Promtail.Vouched(Promtail.Daemons(a, cr.ns), cr, indexes) + Promtail.Created(cr, indexes)
    && (!PromtailOff(cr) && DistinctIds(indexes) ==> Promtail.AllDeployed(b, cr, indexes, w.template, w.hash))
  }

  /** The proxies that the verdicts and the OAuth2 secret in the store call for, and behind every requested one its Service. */
  ghost predicate ProxiesSettled(cr: Cr, w: World, indexes: seq<Index>, a: Store, b: Store) {
    var ns, oauth2 := cr.OperatorNs(), TokenRefreshers.OidcSecret(cr) in b;
    && TokenRefreshers.Refreshers(b, ns) == TokenRefreshers.Settled(TokenRefreshers.Refreshers(a, ns), cr, oauth2, w.parses, indexes)
    && TokenRefreshers.Requested(cr, oauth2, w.parses, indexes) <= TokenRefreshers.Served(b, ns)
  }

  /** Rules, pod monitors and Promtail. */
  method SyncResources(c: Cluster, cr: Cr, w: World, indexes: seq<Index>) returns (ok: bool)
    modifies c
    ensures old(c.log) <= c.log
    ensures Spares(c.log, |old(c.log)|, old(c.store), Kept) && SameKinds(old(c.store), c.store, Kept)
    ensures Adds(old(c.store), c.store, SyncMark(cr)) && MapsStay(old(c.store), c.store)
    ensures ok ==> FilesSettled(cr, w, indexes, old(c.store), c.store) && DaemonsSettled(cr, w, indexes, old(c.store), c.store)
    ensures c.Reliable() && (cr.ExternalSyncDisabled() || FilesAvailable(cr, w, indexes)) ==> ok
  {
    ok := SyncMonitoring(c, cr, w, indexes);
    if ok {
      ghost var before, s := c.log, c.store;
      DaemonsFramed(old(c.store), s, BesideMonitoring, cr.ns);
      ok := Promtail.SyncDaemonsets(c, cr, indexes, w.template, w.hash);
      PromtailAside(before, c.log, s, c.store, cr);
      AddsWiden(s, c.store, Promtail.PromtailMark(cr.ns), SyncMark(cr));
      AddsOn(old(c.store), s, c.store, SyncMark(cr));
      SparesOn(|old(c.log)|, before, c.log, old(c.store), s, c.store, Kept);
      FilesFramed(cr, w, indexes, old(c.store), s, c.store);
    }
  }

  lemma PromtailAside(before: seq<Step>, log: seq<Step>, a: Store, b: Store, cr: Cr)
    requires before <= log && Promtail.AllFramed(log, |before|, a, cr) && Promtail.Framed(a, b, cr)
    ensures Spares(log, |before|, a, Kept) && SameKinds(a, b, BesidePromtail) && MapsStay(a, b)
  {
    FramedSpares(a, b, cr);
    forall i | |before| <= i < |log| ensures SameKinds(a, log[i].post.store, Kept) {
      FramedSpares(a, log[i].post.store, cr);
    }
  }

  lemma FilesFramed(cr: Cr, w: World, indexes: seq<Index>, a: Store, b: Store, d: Store)
    requires FilesSettled(cr, w, indexes, a, b) && SameKinds(b, d, BesidePromtail)
    ensures FilesSettled(cr, w, indexes, a, d)
  {
    if !cr.ExternalSyncDisabled() {
      var kinds := BesidePromtail;
      InSyncFramed(b, d, PrometheusRule, cr.OperatorNs(), Collectors.CollectRules([], indexes), ResourceSync.RuleObject(w.fetch), kinds);
      InSyncFramed(b, d, PodMonitor, cr.OperatorNs(), Collectors.CollectMonitors([], indexes), ResourceSync.MonitorObject(w.fetch), kinds);
      if !cr.Descoped() { DashboardsFramed(cr, w, indexes, a, b, d, kinds); }
    }
  }

  // ---------- A whole sync ----------

  /**
   All of it at once, in the store a sync leaves: proxies, Alertmanager's configuration, the stack's custom
   resources, rules, pod monitors, dashboards and DaemonSets are what the indexes ask for.
   */
  ghost predicate Converged(cr: Cr, w: World, indexes: seq<Index>, healthy: bool, a: Store, b: Store) {
    && ProxiesSettled(cr, w, indexes, a, b)
    && (CompilesConfig(cr) ==> AlertmanagerConfigured(cr, w, indexes, healthy, b))
    && StackWritten(cr, b)
    && FilesSettled(cr, w, indexes, a, b)
    && DaemonsSettled(cr, w, indexes, a, b)
  }

  /** What must hold before a sync for nothing but the cluster to be able to stop it. */
  ghost predicate Unobstructed(cr: Cr, w: World, s: Store, indexes: seq<Index>) {
    var resolved, area := AllExpected(s, cr, w.depth, indexes), TokenArea(s, cr, indexes);
    && Resolvable(s, cr, w.depth, indexes)
    && ProxiesFeasible(cr, w, s, area, resolved)
    && RestFeasible(cr, w, resolved, s)
    && (AlertmanagerConfig.MailSecret(cr, resolved).Some? ==> AlertmanagerConfig.MailSecret(cr, resolved).value !in area)
  }

  ghost predicate RestFeasible(cr: Cr, w: World, indexes: seq<Index>, s: Store) {
    StackFeasible(cr, w, indexes, s) && (cr.ExternalSyncDisabled() || FilesAvailable(cr, w, indexes))
  }

  lemma StackStaysFeasible(cr: Cr, w: World, indexes: seq<Index>, a: Store, b: Store, area: set<Key>)
    requires StackFeasible(cr, w, indexes, a) && SecretsAgree(a, b, area)
    requires AlertmanagerConfig.MailSecret(cr, indexes).Some? ==> AlertmanagerConfig.MailSecret(cr, indexes).value !in area
    ensures StackFeasible(cr, w, indexes, b)
  {
    var mail := AlertmanagerConfig.MailSecret(cr, indexes);
    if mail.Some? { assert Observatoria.Lookup(a, mail.value) == Observatoria.Lookup(b, mail.value); }
  }

  /**
   A completed sync has converged on the resolved indexes. A healthy cluster completes every sync that
   nothing obstructs, and each index that the secrets at the start decide is then resolved as they say.
   */
  method Sync(c: Cluster, cr: Cr, w: World, now: int, indexes: seq<Index>) returns (out: Outcome, ghost resolved: seq<Index>)
    modifies c
    ensures old(c.log) <= c.log && Guarded(old(c.store), |old(c.log)|, c.log, c.store)
    ensures Adds(old(c.store), c.store, SyncMark(cr))
    ensures out.Completed? ==> AllFollow(old(c.store), cr, w.depth, indexes, resolved)
    ensures out.Completed? ==> Converged(cr, w, resolved, c.Reliable(), old(c.store), c.store)
    ensures c.Reliable() && out.Completed? ==> AsExpected(old(c.store), cr, w.depth, indexes, resolved)
    ensures c.Reliable() && Resolvable(old(c.store), cr, w.depth, indexes) ==> resolved == AllExpected(old(c.store), cr, w.depth, indexes)
    ensures c.Reliable() && Unobstructed(cr, w, old(c.store), indexes) ==> out.Completed?
  {
    ghost var start, n, area := c.store, |c.log|, TokenArea(c.store, cr, indexes);
    var list;
    out, list := SyncProxies(c, cr, w, now, indexes);
    resolved := list;
    if out.Completed? {
      if Unobstructed(cr, w, start, indexes) && c.Reliable() { StackStaysFeasible(cr, w, list, start, c.store, area); }
      ghost var a := c.store;
      out := FinishSync(c, cr, w, list, start, n);
      AddsOn(start, a, c.store, SyncMark(cr));
    }
  }

  /** Past the proxies. */
  method FinishSync(c: Cluster, cr: Cr, w: World, indexes: seq<Index>, ghost start: Store, ghost n: nat) returns (out: Outcome)
    requires Guarded(start, n, c.log, c.store) && SameKinds(start, c.store, BesideProxies) && ProxiesSettled(cr, w, indexes, start, c.store)
    modifies c
    ensures old(c.log) <= c.log && Guarded(start, n, c.log, c.store)
    ensures Adds(old(c.store), c.store, SyncMark(cr))
    ensures out.Completed? ==> Converged(cr, w, indexes, c.Reliable(), start, c.store)
    ensures c.Reliable() && RestFeasible(cr, w, indexes, old(c.store)) ==> out.Completed?
  {
    ghost var before, a := c.log, c.store;
    out := SyncStack(c, cr, w, indexes);
    GuardedAside(start, n, before, a, c.log, c.store, SyncedKinds);
    AddsWiden(a, c.store, StackMark(cr), SyncMark(cr));
    if out.Completed? {
      ghost var upTo, b := c.log, c.store;
      var ok := SyncResources(c, cr, w, indexes);
      AddsOn(a, b, c.store, SyncMark(cr));
      GuardedAside(start, n, upTo, b, c.log, c.store, Kept);
      HalvesMeet(cr, w, indexes, c.Reliable(), start, a, b, c.store);
      out := if ok then Completed else Errored;
    }
  }

  lemma ProxiesFramed(cr: Cr, w: World, indexes: seq<Index>, start: Store, a: Store, b: Store, d: Store)
    requires SameKinds(a, b, SyncedKinds) && SecretsAgree(a, b, StackSecrets(cr)) && SameKinds(b, d, Kept)
    requires ProxiesSettled(cr, w, indexes, start, a)
    ensures ProxiesSettled(cr, w, indexes, start, d)
  {
    StackSecretsApart(cr);
    assert Observatoria.Lookup(a, TokenRefreshers.OidcSecret(cr)) == Observatoria.Lookup(b, TokenRefreshers.OidcSecret(cr));
    RefreshersFramed(a, b, SyncedKinds, cr.OperatorNs());
    RefreshersFramed(b, d, Kept, cr.OperatorNs());
  }

  lemma StackFramed(cr: Cr, w: World, indexes: seq<Index>, healthy: bool, b: Store, d: Store)
    requires SameKinds(b, d, Kept) && MapsStay(b, d)
    ensures StackWritten(cr, b) ==> StackWritten(cr, d)
    ensures AlertmanagerConfigured(cr, w, indexes, healthy, b) ==> AlertmanagerConfigured(cr, w, indexes, healthy, d)
  {
    assert SecretsAgree(b, d, {});
    if AlertmanagerConfigured(cr, w, indexes, healthy, b) { ConfiguredFramed(cr, w, indexes, healthy, b, d, {}); }
  }

  lemma FilesFrom(cr: Cr, w: World, indexes: seq<Index>, start: Store, a: Store, b: Store, d: Store)
    requires SameKinds(start, a, BesideProxies) && SameKinds(a, b, SyncedKinds)
    ensures FilesSettled(cr, w, indexes, b, d) ==> FilesSettled(cr, w, indexes, start, d)
    ensures DaemonsSettled(cr, w, indexes, b, d) ==> DaemonsSettled(cr, w, indexes, start, d)
  {
    DaemonsFramed(start, a, BesideProxies, cr.ns);
    DaemonsFramed(a, b, SyncedKinds, cr.ns);
    PresentFramed(start, a, BesideProxies, cr.ns);
    PresentFramed(a, b, SyncedKinds, cr.ns);
  }

  /** Each part left alone what the others settled. */
  lemma HalvesMeet(cr: Cr, w: World, indexes: seq<Index>, healthy: bool, start: Store, a: Store, b: Store, d: Store)
    requires SameKinds(start, a, BesideProxies) && SameKinds(a, b, SyncedKinds) && SecretsAgree(a, b, StackSecrets(cr)) && SameKinds(b, d, Kept) && MapsStay(b, d)
    requires ProxiesSettled(cr, w, indexes, start, a) && StackWritten(cr, b)
    requires WritesAlertmanagerSecret(cr) ==> AlertmanagerConfigured(cr, w, indexes, healthy, b)
    ensures FilesSettled(cr, w, indexes, b, d) && DaemonsSettled(cr, w, indexes, b, d) ==> Converged(cr, w, indexes, healthy, start, d)
  {
    ProxiesFramed(cr, w, indexes, start, a, b, d);
    StackFramed(cr, w, indexes, healthy, b, d);
    FilesFrom(cr, w, indexes, start, a, b, d);
  }

  // ---------- The stage ----------

  /** The index files of the secrets the selector picks in this store, in some order; without external sync there are none. */
  ghost predicate FromSecrets(cr: Cr, selector: Labels, w: World, s: Store, indexes: seq<Index>) {
    if cr.ExternalSyncDisabled() then indexes == []
    else exists order :: order != [] && Enumerates(order, SelectedAnywhere(s, Secret, selector)) && ReadFrom(order, SelectedAnywhere(s, Secret, selector), w.read, indexes)
  }

  /** What a synced pass has done: it read the indexes from the secrets it found, resolved them, and converged on them. */
  ghost predicate Delivered(cr: Cr, selector: Labels, w: World, healthy: bool, a: Store, b: Store) {
    exists indexes, resolved :: DeliveredFor(cr, selector, w, healthy, a, b, indexes, resolved)
  }

  ghost predicate DeliveredFor(cr: Cr, selector: Labels, w: World, healthy: bool, a: Store, b: Store, indexes: seq<Index>, resolved: seq<Index>) {
    && FromSecrets(cr, selector, w, a, indexes)
    && AllFollow(a, cr, w.depth, indexes, resolved)
    && (healthy ==> AsExpected(a, cr, w.depth, indexes, resolved))
    && Converged(cr, w, resolved, healthy, a, b)
  }

  ghost predicate HasIndexes(cr: Cr, selector: Labels, w: World, s: Store) {
    cr.ExternalSyncDisabled() ||
    (&& SelectedAnywhere(s, Secret, selector) != map[]
     && forall k :: k in SelectedAnywhere(s, Secret, selector) ==> w.read(s[k]).Some?)
  }

  /** There are configuration secrets, all of them lead to an index, and whatever order they come in, nothing obstructs the sync. */
  ghost predicate Deliverable(cr: Cr, selector: Labels, w: World, s: Store) {
    && HasIndexes(cr, selector, w, s)
    && (forall indexes :: FromSecrets(cr, selector, w, s, indexes) ==> Unobstructed(cr, w, s, indexes))
  }

  /** The gate opens and what lies behind it can be delivered. */
  ghost predicate ReadyToSync(cr: Cr, spec: SyncSpec, w: World, s: Store, lastSynced: int, now: int) {
    spec.selector.Some? && Opens(cr, spec, s, lastSynced, now) && Deliverable(cr, spec.selector.value, w, s)
  }

  /** What a pass of the stage from the store `a` to the store `b` says of itself is what happened. */
  ghost predicate Truthful(cr: Cr, spec: SyncSpec, w: World, migrated: bool, healthy: bool, a: Store, b: Store, p: Pass) {
    && (forall period :: spec.period in {None, Some(period)} ==> Sound(p, period))
    && (p.kind in {NotRun, Waiting} ==> b == a)
    && (p.kind == Synced ==>
         && spec.selector.Some? && Delivered(cr, spec.selector.value, w, healthy, a, b)
         && (cr.ExternalSyncDisabled() ==> p.forced)
         && p.after == if cr.ExternalSyncDisabled() then 0 else TokenExpiry.UnixSeconds(p.ended))
    && (healthy && spec.selector.None? && Opens(cr, spec, a, p.before, p.began) ==> p.kind == Dead)
    && (healthy && p.forced ==> Overridden(cr, migrated, a, p.began))
  }

  /**
   One pass through the stage. Only a completed sync sets LastSynced, only a pass without configuration
   resets it, and a throttled pass writes nothing at all. A nil selector with external sync disabled is
   dereferenced: the pass is dead, as after any other crash.
   */
  method Reconcile(c: Cluster, cr: Cr, spec: SyncSpec, w: World, migrated: bool, lastSynced: int, began: int, ended: int)
    returns (kind: PassKind, forced: bool, after: int)
    requires TokenExpiry.Second <= began <= ended
    modifies c
    ensures old(c.log) <= c.log && Guarded(old(c.store), |old(c.log)|, c.log, c.store)
    ensures Adds(old(c.store), c.store, SyncMark(cr))
    ensures kind in {NotRun, Waiting} ==> OnlyReads(c.log, |old(c.log)|, c.store)
    ensures Truthful(cr, spec, w, migrated, c.Reliable(), old(c.store), c.store, Pass(began, ended, forced, kind, lastSynced, after))
    ensures c.Reliable() && ReadyToSync(cr, spec, w, old(c.store), lastSynced, began) ==> kind == Synced
  {
    var gate;
    gate, forced := Check(c, cr, spec, migrated, lastSynced, began);
    ReadsAreGuarded(c.log, |old(c.log)|, c.store);
    kind := if gate.GateFailed? then Failing else NotRun;
    if gate.Open? { kind := PassGate(c, cr, spec.selector, w, began, |old(c.log)|); }
    after := lastSynced;
    if kind == Waiting { after := 0; }
    if kind == Synced { after := if cr.ExternalSyncDisabled() then 0 else TokenExpiry.UnixSeconds(ended); }
    PassIsSound(cr, spec, gate, forced, kind, lastSynced, after, began, ended);
  }

  lemma PassIsSound(cr: Cr, spec: SyncSpec, gate: Gate, forced: bool, kind: PassKind, lastSynced: int, after: int, began: int, ended: int)
    requires TokenExpiry.Second <= began <= ended
    requires gate.Open? ==> forced || lastSynced == 0 || (spec.period.Some? && IsDue(lastSynced, spec.period.value, began))
    requires gate.Open? && cr.ExternalSyncDisabled() ==> forced
    requires kind in {Waiting, Synced} ==> gate.Open?
    requires after == match kind
      case Waiting => 0
      case Synced => if cr.ExternalSyncDisabled() then 0 else TokenExpiry.UnixSeconds(ended)
      case _ => lastSynced
    ensures forall period :: spec.period in {None, Some(period)} ==> Sound(Pass(began, ended, forced, kind, lastSynced, after), period)
  {
  }

  /** Behind the gate; `n` entries were in the log when the pass began, and it has only read since. */
  method PassGate(c: Cluster, cr: Cr, selector: Option<Labels>, w: World, now: int, ghost n: nat) returns (kind: PassKind)
    requires n <= |c.log| && OnlyReads(c.log, n, c.store)
    modifies c
    ensures old(c.log) <= c.log && Guarded(old(c.store), n, c.log, c.store)
    ensures Adds(old(c.store), c.store, SyncMark(cr))
    ensures kind != NotRun && (kind == Waiting ==> c.store == old(c.store) && OnlyReads(c.log, n, c.store))
    ensures kind == Synced ==> selector.Some? && Delivered(cr, selector.value, w, c.Reliable(), old(c.store), c.store)
    ensures c.Reliable() && selector.Some? && Deliverable(cr, selector.value, w, old(c.store)) ==> kind == Synced
    ensures selector.None? ==> kind == Dead
  {
    ReadsAreGuarded(c.log, n, c.store);
    kind := Dead;
    if selector.Some? {
      ghost var before, s := c.log, c.store;
      kind := SyncSelected(c, cr, selector.value, w, now);
      GuardedOn(s, n, before, s, c.log, c.store);
      if kind == Waiting { StillOnlyReads(before, c.log, n, s); }
    }
  }

  lemma StillOnlyReads(before: seq<Step>, log: seq<Step>, n: nat, s: Store)
    requires before <= log && n <= |before| && OnlyReads(before, n, s) && OnlyReads(log, |before|, s)
    ensures OnlyReads(log, n, s)
  {
    forall i | n <= i < |log| ensures log[i].op == Read && log[i].post.store == s {
      if i < |before| { assert log[i] == before[i]; }
    }
  }

  lemma ReadsAreGuarded(log: seq<Step>, n: nat, s: Store)
    requires n <= |log| && OnlyReads(log, n, s)
    ensures Guarded(s, n, log, s)
  {
  }

  datatype Reading = Indexes(list: seq<Index>) | Unreadable | NoSecrets

  /** Without external sync there are no secrets to list, and no index. */
  method ReadIndexes(c: Cluster, cr: Cr, selector: Labels, w: World) returns (r: Reading)
    modifies c
    ensures old(c.log) <= c.log && c.store == old(c.store) && OnlyReads(c.log, |old(c.log)|, c.store)
    ensures r.Indexes? ==> FromSecrets(cr, selector, w, c.store, r.list)
    ensures r.NoSecrets? ==> !cr.ExternalSyncDisabled() && SelectedAnywhere(c.store, Secret, selector) == map[]
    ensures c.Reliable() && HasIndexes(cr, selector, w, c.store) ==> r.Indexes?
  {
    if cr.ExternalSyncDisabled() { return Indexes([]); }
    var listing := c.ListAnywhere(Secret, selector);
    if listing.ListFailed? { return Unreadable; }
    if listing.order == [] {
      assert listing.items.Keys == {};
      return NoSecrets;
    }
    FirstKeysSound(listing.order);
    var ok, indexes := CollectIndexes(listing.order, listing.items, w.read);
    return if ok then Indexes(indexes) else Unreadable;
  }

  /** Past the gate. */
  method SyncSelected(c: Cluster, cr: Cr, selector: Labels, w: World, now: int) returns (kind: PassKind)
    modifies c
    ensures old(c.log) <= c.log && Guarded(old(c.store), |old(c.log)|, c.log, c.store)
    ensures Adds(old(c.store), c.store, SyncMark(cr))
    ensures kind != NotRun
    ensures kind == Waiting ==> c.store == old(c.store) && OnlyReads(c.log, |old(c.log)|, c.store)
    ensures kind == Waiting ==> !cr.ExternalSyncDisabled() && SelectedAnywhere(old(c.store), Secret, selector) == map[]
    ensures kind == Synced ==> Delivered(cr, selector, w, c.Reliable(), old(c.store), c.store)
    ensures c.Reliable() && Deliverable(cr, selector, w, old(c.store)) ==> kind == Synced
  {
    var reading := ReadIndexes(c, cr, selector, w);
    ReadsAreGuarded(c.log, |old(c.log)|, c.store);
    match reading {
      case NoSecrets => kind := Waiting;
      case Unreadable => kind := Failing;
      case Indexes(indexes) =>
        ghost var before, s := c.log, c.store;
        var out;
        ghost var resolved;
        out, resolved := Sync(c, cr, w, now, indexes);
        GuardedOn(s, |old(c.log)|, before, s, c.log, c.store);
        kind := if out.Completed? then Synced else if out.Crashed? then Dead else Failing;
        assert out.Completed? ==> DeliveredFor(cr, selector, w, c.Reliable(), s, c.store, indexes, resolved);
    }
  }
}
