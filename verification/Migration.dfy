/** The one-time removal of the objects that carry the old default names. */
module Migration {
  import opened Kube
  import opened Observability
  import opened Stack
  import Install

  // ---------- What is removed ----------

  function OldPrometheusCr(cr: Cr): seq<Key> { [Key(Prometheus, cr.OperatorNs(), "kafka-prometheus")] }
  function OldPrometheusRest(cr: Cr): seq<Key> {
    [Key(Route, cr.OperatorNs(), "kafka-prometheus"), Key(Service, cr.OperatorNs(), "kafka-prometheus"),
     Key(ServiceAccount, cr.OperatorNs(), "kafka-prometheus"), Key(ClusterRole, "", "kafka-prometheus"),
     Key(ClusterRoleBinding, "", "kafka-prometheus")]
  }
  function OldAlertmanagerFront(cr: Cr): seq<Key> {
    (if !cr.HasAlertmanagerConfigSecret() && !cr.ExternalSyncDisabled()
     then [Key(Secret, cr.OperatorNs(), "alertmanager-kafka-alertmanager")] else [])
    + [Key(Alertmanager, cr.OperatorNs(), "kafka-alertmanager")]
  }
  function OldAlertmanagerRest(cr: Cr): seq<Key> {
    [Key(ServiceAccount, cr.OperatorNs(), "kafka-alertmanager"), Key(Route, cr.OperatorNs(), "kafka-alertmanager"),
     Key(Service, cr.OperatorNs(), "kafka-alertmanager"), Key(ClusterRole, "", "kafka-alertmanager"),
     Key(ClusterRoleBinding, "", "kafka-alertmanager")]
  }
  function OldGrafanaCr(cr: Cr): seq<Key> { [Key(Grafana, cr.ns, "kafka-grafana")] }
  function OldPromtail(cr: Cr): seq<Key> {
    [Key(ServiceAccount, cr.ns, "kafka-promtail"), Key(ClusterRole, "", "kafka-promtail"), Key(ClusterRoleBinding, "", "kafka-promtail")]
  }

  predicate MigratesPrometheus(cr: Cr) { cr.prometheusName == "" }
  predicate MigratesAlertmanager(cr: Cr) { cr.alertmanagerName == "" }
  predicate MigratesGrafana(cr: Cr) { !cr.Descoped() && cr.grafanaName == "" }
  predicate MigratesPromtail(cr: Cr) { !cr.ExternalSyncDisabled() || !cr.ObservatoriumDisabled() }

  /** Everything a migration may delete. */
  predicate Old(cr: Cr, k: Key) {
    || (MigratesPrometheus(cr) && (k in OldPrometheusCr(cr) || k in OldPrometheusRest(cr)))
    || (MigratesAlertmanager(cr) && (k in OldAlertmanagerFront(cr) || k in OldAlertmanagerRest(cr)))
    || (MigratesGrafana(cr) && k in OldGrafanaCr(cr))
    || (MigratesPromtail(cr) && k in OldPromtail(cr))
  }

  ghost predicate AllRemoved(cr: Cr, s: Store) {
    && (MigratesPrometheus(cr) ==> Absent(s, OldPrometheusCr(cr)) && Absent(s, OldPrometheusRest(cr)))
    && (MigratesAlertmanager(cr) ==> Absent(s, OldAlertmanagerFront(cr)) && Absent(s, OldAlertmanagerRest(cr)))
    && (MigratesGrafana(cr) ==> Absent(s, OldGrafanaCr(cr)))
    && (MigratesPromtail(cr) ==> Absent(s, OldPromtail(cr)))
  }

  /** What carried a server's old default name: its custom resource and what came with it. */
  predicate OldServer(cr: Cr, k: Key, kind: Kind, name: string) {
    k.name == name &&
    ((k.ns == cr.OperatorNs() && k.kind in {kind, Route, Service, ServiceAccount}) || (k.ns == "" && k.kind in {ClusterRole, ClusterRoleBinding}))
  }

  /** The old objects, by name: of each component that has no name of its own, and of Promtail unless both its sources are off. */
  lemma OldIff(cr: Cr, k: Key)
    ensures Old(cr, k) <==>
      || (cr.prometheusName == "" && OldServer(cr, k, Prometheus, "kafka-prometheus"))
      || (cr.alertmanagerName == "" && OldServer(cr, k, Alertmanager, "kafka-alertmanager"))
      || (cr.alertmanagerName == "" && k == Key(Secret, cr.OperatorNs(), "alertmanager-kafka-alertmanager")
          && (cr.selfContained.Some? ==> cr.selfContained.value.disableRepoSync != Some(true) && cr.selfContained.value.alertmanagerConfigSecret == ""))
      || (cr.grafanaName == "" && !cr.Descoped() && k == Key(Grafana, cr.ns, "kafka-grafana"))
      || (k.name == "kafka-promtail"
          && ((k.ns == cr.ns && k.kind == ServiceAccount) || (k.ns == "" && k.kind in {ClusterRole, ClusterRoleBinding}))
          && (cr.selfContained.Some? ==> cr.selfContained.value.disableRepoSync != Some(true) || cr.selfContained.value.disableObservatorium != Some(true)))
  {
  }

  /** Removed is all of them. */
  lemma AllRemovedIff(cr: Cr, s: Store)
    ensures AllRemoved(cr, s) <==> forall k :: Old(cr, k) ==> k !in s
  {
    if forall k :: Old(cr, k) ==> k !in s {
      forall k | k in OldPrometheusCr(cr) + OldPrometheusRest(cr) && MigratesPrometheus(cr) ensures k !in s { assert Old(cr, k); }
      forall k | k in OldAlertmanagerFront(cr) + OldAlertmanagerRest(cr) && MigratesAlertmanager(cr) ensures k !in s { assert Old(cr, k); }
      forall k | k in OldGrafanaCr(cr) && MigratesGrafana(cr) ensures k !in s { assert Old(cr, k); }
      forall k | k in OldPromtail(cr) && MigratesPromtail(cr) ensures k !in s { assert Old(cr, k); }
    }
  }

  /** Every call since `n` only read or deleted one of `old`; nothing else is missing. */
  ghost predicate OnlyOld(old_: iset<Key>, start: Store, n: nat, log: seq<Step>, now: Store) {
    && n <= |log|
    && (forall i :: n <= i < |log| ==> log[i].op.Read? || (log[i].op.Del? && log[i].op.key in old_))
    && Submap(now, start)
    && (forall k :: k in start && k !in now ==> k in old_)
    && Spares(log, n, start, ProxyKinds) && SameKinds(start, now, ProxyKinds)
  }

  ghost function OldSet(cr: Cr): iset<Key> { iset k: Key | Old(cr, k) }

  ghost predicate AllOld(ks: seq<Key>, old_: iset<Key>) {
    forall i :: 0 <= i < |ks| ==> ks[i] in old_ && ks[i].kind !in ProxyKinds
  }

  method RemoveAll(c: Cluster, ks: seq<Key>, ghost old_: iset<Key>, ghost start: Store, ghost n: nat) returns (ok: bool)
    requires OnlyOld(old_, start, n, c.log, c.store) && AllOld(ks, old_)
    modifies c
    ensures old(c.log) <= c.log && OnlyOld(old_, start, n, c.log, c.store) && Submap(c.store, old(c.store))
    ensures ok ==> Absent(c.store, ks)
    ensures c.Reliable() ==> ok
  {
    ok := true;
    for i := 0 to |ks|
      invariant ok && old(c.log) <= c.log && OnlyOld(old_, start, n, c.log, c.store) && Submap(c.store, old(c.store))
      invariant forall j :: 0 <= j < i ==> ks[j] !in c.store
    {
      var ack := c.Delete(ks[i]);
      ok := ack != Failed;
      if !ok { break; }
    }
  }

  /** The waits look for the workload under its new name, and their answer is dropped. */
  method Glance(c: Cluster, cr: Cr, x: Component, ghost old_: iset<Key>, ghost start: Store, ghost n: nat)
    requires OnlyOld(old_, start, n, c.log, c.store)
    modifies c
    ensures old(c.log) <= c.log && OnlyOld(old_, start, n, c.log, c.store) && c.store == old(c.store)
  {
    var _, _ := c.SeesWorkload(Awaited(cr, x));
  }

  /** Front, wait, rest: the shape of the Prometheus and Alertmanager branches. */
  method RemoveComponent(c: Cluster, cr: Cr, front: seq<Key>, x: Component, rest: seq<Key>, ghost old_: iset<Key>, ghost start: Store, ghost n: nat)
    returns (ok: bool)
    requires OnlyOld(old_, start, n, c.log, c.store) && AllOld(front, old_) && AllOld(rest, old_)
    modifies c
    ensures old(c.log) <= c.log && OnlyOld(old_, start, n, c.log, c.store) && Submap(c.store, old(c.store))
    ensures ok ==> Absent(c.store, front) && Absent(c.store, rest)
    ensures c.Reliable() ==> ok
  {
    ok := RemoveAll(c, front, old_, start, n);
    if ok {
      Glance(c, cr, x, old_, start, n);
      ok := RemoveAll(c, rest, old_, start, n);
    }
  }

  method RemoveServers(c: Cluster, cr: Cr, ghost start: Store, ghost n: nat) returns (ok: bool)
    requires OnlyOld(OldSet(cr), start, n, c.log, c.store)
    modifies c
    ensures old(c.log) <= c.log && OnlyOld(OldSet(cr), start, n, c.log, c.store) && Submap(c.store, old(c.store))
    ensures ok && MigratesPrometheus(cr) ==> Absent(c.store, OldPrometheusCr(cr)) && Absent(c.store, OldPrometheusRest(cr))
    ensures ok && MigratesAlertmanager(cr) ==> Absent(c.store, OldAlertmanagerFront(cr)) && Absent(c.store, OldAlertmanagerRest(cr))
    ensures c.Reliable() ==> ok
  {
    ok := true;
    if MigratesPrometheus(cr) {
      ok := RemoveComponent(c, cr, OldPrometheusCr(cr), PrometheusServer, OldPrometheusRest(cr), OldSet(cr), start, n);
    }
    if ok && MigratesAlertmanager(cr) {
      ok := RemoveComponent(c, cr, OldAlertmanagerFront(cr), AlertmanagerServer, OldAlertmanagerRest(cr), OldSet(cr), start, n);
    }
  }

  method RemoveOthers(c: Cluster, cr: Cr, ghost start: Store, ghost n: nat) returns (ok: bool)
    requires OnlyOld(OldSet(cr), start, n, c.log, c.store)
    modifies c
    ensures old(c.log) <= c.log && OnlyOld(OldSet(cr), start, n, c.log, c.store) && Submap(c.store, old(c.store))
    ensures ok && MigratesGrafana(cr) ==> Absent(c.store, OldGrafanaCr(cr))
    ensures ok && MigratesPromtail(cr) ==> Absent(c.store, OldPromtail(cr))
    ensures c.Reliable() ==> ok
  {
    ok := true;
    if MigratesGrafana(cr) {
      ok := RemoveAll(c, OldGrafanaCr(cr), OldSet(cr), start, n);
      if ok { Glance(c, cr, GrafanaServer, OldSet(cr), start, n); }
    }
    if ok && MigratesPromtail(cr) { ok := RemoveAll(c, OldPromtail(cr), OldSet(cr), start, n); }
  }

  /**
   The stage: nothing once migrated; otherwise it deletes old objects only, and on success, when all of
   them are gone, latches.
   */
  method Reconcile(c: Cluster, cr: Cr, migrated: bool) returns (status: StageStatus, latched: bool)
    modifies c
    ensures old(c.log) <= c.log && OnlyOld(OldSet(cr), old(c.store), |old(c.log)|, c.log, c.store)
    ensures migrated ==> c.store == old(c.store) && c.log == old(c.log) && status.ResultSuccess?
    ensures latched == (migrated || status.ResultSuccess?)
    ensures status.ResultSuccess? && !migrated ==> AllRemoved(cr, c.store)
    ensures !NameClash(cr) ==> forall k :: k in Install.Footprint(cr) && k in old(c.store) ==> k in c.store
    ensures c.Reliable() ==> status.ResultSuccess?
  {
    if migrated { return ResultSuccess, true; }
    ghost var start, n := c.store, |c.log|;
    var ok := RemoveServers(c, cr, start, n);
    if ok { ok := RemoveOthers(c, cr, start, n); }
    status, latched := if ok then ResultSuccess else ResultFailed, ok;
    if !NameClash(cr) { Spared(cr, start, n, c.log, c.store); }
  }

  // ---------- When a migration deletes what is in use ----------

  /** A component's own name is another component's old default. */
  predicate NameClash(cr: Cr) {
    || (MigratesPrometheus(cr) && cr.Alertmanager() == "kafka-prometheus")
    || (MigratesAlertmanager(cr) && cr.Prometheus() == "kafka-alertmanager")
    || (MigratesPromtail(cr) && (cr.Prometheus() == "kafka-promtail" || cr.Alertmanager() == "kafka-promtail"))
  }

  /** What the name of an object of the stack looks like; of those not derived from a component's name, no more is needed. */
  predicate StackName(cr: Cr, k: Key) {
    match k.kind
    case Prometheus => k.name == cr.Prometheus()
    case Alertmanager => k.name == cr.Alertmanager()
    case Grafana => k.name == cr.Grafana()
    case Secret => k.name == "alertmanager-" + cr.Alertmanager() || |k.name| < 30
    case ClusterRole => ServerName(cr, k.name)
    case ClusterRoleBinding => ServerName(cr, k.name)
    case ServiceAccount => ServerName(cr, k.name)
    case Route => ServerName(cr, k.name)
    case Service => ServerName(cr, k.name)
    case _ => true
  }

  predicate ServerName(cr: Cr, name: string) {
    name == cr.Prometheus() || name == cr.Alertmanager() || (name != "" && name[0] != 'k') || |name| > |"kafka-alertmanager"|
  }

  ghost predicate StackNames(cr: Cr, ks: seq<Key>) {
    forall i :: 0 <= i < |ks| ==> StackName(cr, ks[i])
  }

  lemma PrometheusFrontNames(cr: Cr)
    ensures StackNames(cr, PrometheusFrontKeys(cr))
  {
  }

  lemma PrometheusBackNames(cr: Cr)
    ensures StackNames(cr, PrometheusBackKeys(cr))
  {
  }

  lemma PrometheusInstallationNames(cr: Cr)
    ensures StackNames(cr, PrometheusInstallationKeys(cr))
  {
  }

  lemma GrafanaBackNames(cr: Cr)
    ensures StackNames(cr, GrafanaBackKeys(cr))
  {
  }

  lemma GrafanaInstallationNames(cr: Cr)
    ensures StackNames(cr, GrafanaInstallationKeys(cr))
  {
  }

  lemma AlertmanagerBackNames(cr: Cr)
    ensures StackNames(cr, AlertmanagerBackKeys(cr))
  {
  }

  lemma PromtailNames(cr: Cr)
    ensures StackNames(cr, PromtailKeys(cr))
  {
  }

  lemma NameIn(cr: Cr, ks: seq<Key>, k: Key)
    requires StackNames(cr, ks) && k in Install.Elements(ks)
    ensures StackName(cr, k)
  {
  }

  lemma PrometheusNames(cr: Cr, k: Key)
    requires k in Install.PrometheusFootprint(cr)
    ensures StackName(cr, k)
  {
    if k in Install.Elements(PrometheusFrontKeys(cr)) {
      PrometheusFrontNames(cr);
      NameIn(cr, PrometheusFrontKeys(cr), k);
    } else if k in Install.Elements(PrometheusBackKeys(cr)) {
      PrometheusBackNames(cr);
      NameIn(cr, PrometheusBackKeys(cr), k);
    } else {
      PrometheusInstallationNames(cr);
      NameIn(cr, PrometheusInstallationKeys(cr), k);
    }
  }

  lemma GrafanaNames(cr: Cr, k: Key)
    requires k in Install.GrafanaFootprint(cr)
    ensures StackName(cr, k)
  {
    if k in Install.Elements(GrafanaBackKeys(cr)) {
      GrafanaBackNames(cr);
      NameIn(cr, GrafanaBackKeys(cr), k);
    } else if k in Install.Elements(GrafanaInstallationKeys(cr)) {
      GrafanaInstallationNames(cr);
      NameIn(cr, GrafanaInstallationKeys(cr), k);
    }
  }

  lemma AlertmanagerNames(cr: Cr, k: Key)
    requires k in Install.AlertmanagerFootprint(cr)
    ensures StackName(cr, k)
  {
    if k in Install.Elements(AlertmanagerBackKeys(cr)) {
      AlertmanagerBackNames(cr);
      NameIn(cr, AlertmanagerBackKeys(cr), k);
    }
  }

  lemma FootprintNames(cr: Cr, k: Key)
    requires k in Install.Footprint(cr)
    ensures StackName(cr, k)
  {
    if k in Install.PrometheusFootprint(cr) {
      PrometheusNames(cr, k);
    } else if k in Install.GrafanaFootprint(cr) {
      GrafanaNames(cr, k);
    } else if k in Install.AlertmanagerFootprint(cr) {
      AlertmanagerNames(cr, k);
    } else {
      PromtailNames(cr);
      NameIn(cr, PromtailKeys(cr), k);
    }
  }

  lemma OldServersNotInUse(cr: Cr, k: Key)
    requires !NameClash(cr) && MigratesPrometheus(cr) && (k in OldPrometheusCr(cr) || k in OldPrometheusRest(cr))
    ensures !StackName(cr, k)
  {
  }

  lemma OldAlertmanagerNotInUse(cr: Cr, k: Key)
    requires !NameClash(cr) && MigratesAlertmanager(cr) && (k in OldAlertmanagerFront(cr) || k in OldAlertmanagerRest(cr))
    ensures !StackName(cr, k)
  {
  }

  lemma OldRestNotInUse(cr: Cr, k: Key)
    requires !NameClash(cr) && ((MigratesGrafana(cr) && k in OldGrafanaCr(cr)) || (MigratesPromtail(cr) && k in OldPromtail(cr)))
    ensures !StackName(cr, k)
  {
  }

  lemma OldNotInUse(cr: Cr, k: Key)
    requires !NameClash(cr) && Old(cr, k)
    ensures k !in Install.Footprint(cr)
  {
    if MigratesPrometheus(cr) && (k in OldPrometheusCr(cr) || k in OldPrometheusRest(cr)) {
      OldServersNotInUse(cr, k);
    } else if MigratesAlertmanager(cr) && (k in OldAlertmanagerFront(cr) || k in OldAlertmanagerRest(cr)) {
      OldAlertmanagerNotInUse(cr, k);
    } else {
      OldRestNotInUse(cr, k);
    }
    if k in Install.Footprint(cr) { FootprintNames(cr, k); }
  }

  lemma ClashIsInUse(cr: Cr)
    requires NameClash(cr)
    ensures exists k :: Old(cr, k) && k in Install.Footprint(cr)
  {
    var p, a := PrometheusRole(cr), AlertmanagerRole(cr);
    assert PrometheusBackKeys(cr)[1] == p && AlertmanagerBackKeys(cr)[6] == a;
    assert p in Install.Footprint(cr) && a in Install.Footprint(cr);
    if MigratesPrometheus(cr) && cr.Alertmanager() == "kafka-prometheus" {
      assert OldPrometheusRest(cr)[3] == a;
      assert Old(cr, a);
    } else if MigratesAlertmanager(cr) && cr.Prometheus() == "kafka-alertmanager" {
      assert OldAlertmanagerRest(cr)[3] == p;
      assert Old(cr, p);
    } else {
      assert OldPromtail(cr)[1] == p || OldPromtail(cr)[1] == a;
      assert Old(cr, p) || Old(cr, a);
    }
  }

  lemma Spared(cr: Cr, start: Store, n: nat, log: seq<Step>, now: Store)
    requires !NameClash(cr) && OnlyOld(OldSet(cr), start, n, log, now)
    ensures forall k :: k in Install.Footprint(cr) && k in start ==> k in now
  {
    forall k | k in Install.Footprint(cr) && k in start ensures k in now {
      if Old(cr, k) { OldNotInUse(cr, k); }
      assert k in OldSet(cr) ==> Old(cr, k);
    }
  }

  /** A migration may delete an object the stack uses exactly when the names clash. */
  lemma HarmlessIff(cr: Cr)
    ensures (forall k :: Old(cr, k) ==> k !in Install.Footprint(cr)) <==> !NameClash(cr)
  {
    if NameClash(cr) {
      ClashIsInUse(cr);
    } else {
      forall k | Old(cr, k) ensures k !in Install.Footprint(cr) { OldNotInUse(cr, k); }
    }
  }
}
