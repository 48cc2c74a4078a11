/** A whole life: any number of passes with all their stages, then cleanup, and what that leaves behind. */
module RoundTrip {
  import opened Kube
  import opened Observability
  import opened Stack
  import opened Webhook
  import Install
  import TokenExpiry
  import TokenRefreshers
  import ResourceSync
  import Promtail
  import ConfigurationSync
  import Teardown
  import CleanupPass
  import Operator

  /**
   What no cleanup deletes: the services of the proxies and the generated rule; without external sync the rules,
   pod monitors and dashboards of earlier syncs; and where the operator works in another namespace, what it
   wrote there under a label, because cleanup looks for labels in the resource's own.
   */
  predicate Leftover(cr: Cr, k: Key, o: Obj) {
    var ns := cr.OperatorNs();
    || (k.kind == Service && k.ns == ns && TokenRefreshers.IsRefresher(k.name)
        && k !in {PrometheusService(cr), AlertmanagerService(cr), ResourcesService(cr)})
    || (k == ConfigurationSync.GeneratedRule(cr) && !Matches(o, ManagedBy))
    || (k.kind in {PrometheusRule, PodMonitor} && k.ns == ns && (cr.ExternalSyncDisabled() || ns != cr.ns))
    || (k.kind == GrafanaDashboard && k.ns == cr.ns && cr.ExternalSyncDisabled())
    || (k.kind in ProxyKinds && k.ns == ns && ns != cr.ns)
    || (k == ConfigurationSync.BlackBoxConfig(cr) && ns != cr.ns)
  }

  lemma LeftoversOutlast(cr: Cr, s: Store, k: Key, o: Obj)
    requires Leftover(cr, k, o)
    ensures !Teardown.Erasable(cr, s, k, o)
  {
    LeftoversNotFixed(cr, k, o);
    LeftoversNotSwept(cr, k, o);
  }

  lemma LeftoversNotSwept(cr: Cr, k: Key, o: Obj)
    requires Leftover(cr, k, o)
    ensures !Teardown.Swept(cr, k, o)
  {
  }

  lemma LeftoversNotFixed(cr: Cr, k: Key, o: Obj)
    requires Leftover(cr, k, o)
    ensures !Teardown.Fixed(cr, k) && k.kind != Csv
  {
  }

  lemma NotLabelled(s: Store, kind: Kind, ns: string, sel: Labels, k: Key)
    requires Teardown.NoneLeft(s, kind, ns, sel) && k in s && k.kind == kind && k.ns == ns
    ensures !Matches(s[k], sel)
  {
    assert k !in Selected(s, kind, ns, sel);
  }

  lemma TokensAreManaged(o: Obj)
    requires Matches(o, TokenExpiry.TokenLabels)
    ensures Matches(o, ManagedBy)
  {
    assert "managed-by" in TokenExpiry.TokenLabels;
  }

  lemma NoTokenLeft(cr: Cr, s: Store, k: Key)
    requires Teardown.ConfigurationGone(cr, s) && k in s
    ensures !TokenExpiry.TokenMark(cr.ns)(k, s[k])
  {
    if TokenExpiry.TokenMark(cr.ns)(k, s[k]) {
      TokensAreManaged(s[k]);
      NotLabelled(s, Secret, cr.ns, ManagedBy, k);
    }
  }

  /** The services that cleanup knows by name are gone. */
  ghost predicate ServicesGone(cr: Cr, s: Store) {
    PrometheusService(cr) !in s && AlertmanagerService(cr) !in s && ResourcesService(cr) !in s
  }

  lemma ServicesAreGone(cr: Cr, sole: set<Component>, now: Snapshot)
    requires CleanupPass.AllAchieved(cr, sole, |CleanupStages|, now)
    ensures ServicesGone(cr, now.store)
  {
    CleanupPass.StageAchieved(cr, sole, 0, now);
    CleanupPass.StageAchieved(cr, sole, 4, now);
    CleanupPass.StageAchieved(cr, sole, 7, now);
    assert PrometheusBackKeys(cr)[3] == PrometheusService(cr) && AlertmanagerBackKeys(cr)[4] == AlertmanagerService(cr);
    assert ResourcesKeys(cr)[1] == ResourcesService(cr);
  }

  lemma NoProxyLeft(cr: Cr, s: Store, k: Key)
    requires Teardown.ConfigurationGone(cr, s) && ServicesGone(cr, s) && k in s && TokenRefreshers.ProxyMark(cr.OperatorNs())(k, s[k])
    ensures Leftover(cr, k, s[k])
  {
    if k.kind in ProxyKinds && k.ns == cr.ns {
      NotLabelled(s, k.kind, cr.ns, TokenRefreshers.ProxyLabels, k);
    }
  }

  lemma NoFileLeft(cr: Cr, s: Store, kind: Kind, ns: string, k: Key)
    requires Teardown.ConfigurationGone(cr, s) && k in s && ResourceSync.FileMark(kind, ns)(k, s[k])
    requires (kind in {PrometheusRule, PodMonitor} && ns == cr.OperatorNs()) || (kind == GrafanaDashboard && ns == cr.ns && !cr.Descoped())
    ensures Leftover(cr, k, s[k])
  {
    if !cr.ExternalSyncDisabled() && ns == cr.ns { NotLabelled(s, kind, ns, ManagedBy, k); }
  }

  lemma NoDaemonLeft(cr: Cr, s: Store, k: Key)
    requires Teardown.ConfigurationGone(cr, s) && k in s
    ensures !Promtail.PromtailMark(cr.ns)(k, s[k])
  {
    if Promtail.PromtailMark(cr.ns)(k, s[k]) { NotLabelled(s, k.kind, cr.ns, ManagedBy, k); }
  }

  /** Of what a sync writes for the stack all but the map is in the footprint. */
  lemma StackOwned(cr: Cr, k: Key)
    requires k in ConfigurationSync.StackWrites(cr) || k == AlertmanagerSecret(cr)
    ensures k in Install.Footprint(cr) || k == ConfigurationSync.BlackBoxConfig(cr)
  {
    assert PrometheusFrontKeys(cr)[0] == PrometheusScrapeConfig(cr) && PrometheusFrontKeys(cr)[2] == PrometheusCr(cr);
    assert AlertmanagerBackKeys(cr)[0] == AlertmanagerSecret(cr);
    assert PrometheusScrapeConfig(cr) in Install.PrometheusFootprint(cr) && PrometheusCr(cr) in Install.PrometheusFootprint(cr);
    assert AlertmanagerSecret(cr) in Install.AlertmanagerFootprint(cr) && AlertmanagerCr(cr) in Install.AlertmanagerFootprint(cr);
    assert !cr.Descoped() ==> GrafanaCr(cr) in Install.GrafanaFootprint(cr);
  }

  lemma NoStackLeft(cr: Cr, s: Store, k: Key)
    requires Teardown.ConfigurationGone(cr, s) && Install.Footprint(cr) !! s.Keys && k in s && ConfigurationSync.StackMark(cr)(k, s[k])
    ensures Leftover(cr, k, s[k])
  {
    StackOwned(cr, k);
    if cr.OperatorNs() == cr.ns { NotLabelled(s, ConfigMap, cr.ns, ManagedBy, k); }
  }

  lemma NothingSyncedLeft(cr: Cr, s: Store, k: Key)
    requires Teardown.ConfigurationGone(cr, s) && ServicesGone(cr, s) && Install.Footprint(cr) !! s.Keys
    requires k in s && ConfigurationSync.SyncMark(cr)(k, s[k])
    ensures Leftover(cr, k, s[k])
  {
    var o, ns := s[k], cr.OperatorNs();
    NoTokenLeft(cr, s, k);
    NoDaemonLeft(cr, s, k);
    if TokenRefreshers.ProxyMark(ns)(k, o) {
      NoProxyLeft(cr, s, k);
    } else if ConfigurationSync.StackMark(cr)(k, o) {
      NoStackLeft(cr, s, k);
    } else if ResourceSync.FileMark(PrometheusRule, ns)(k, o) {
      NoFileLeft(cr, s, PrometheusRule, ns, k);
    } else if ResourceSync.FileMark(PodMonitor, ns)(k, o) {
      NoFileLeft(cr, s, PodMonitor, ns, k);
    } else if k == ConfigurationSync.GeneratedRule(cr) {
      if !cr.ExternalSyncDisabled() && ns == cr.ns { NotLabelled(s, PrometheusRule, ns, ManagedBy, k); }
    } else {
      NoFileLeft(cr, s, GrafanaDashboard, cr.ns, k);
    }
  }

  lemma NothingInstalledLeft(cr: Cr, s: Store, k: Key)
    requires Install.Footprint(cr) !! s.Keys && k in s
    requires TokenLifetimes(cr) in s ==> !Matches(s[TokenLifetimes(cr)], ManagedBy)
    ensures !Install.InstallMark(Install.Footprint(cr), TokenLifetimes(cr))(k, s[k])
  {
  }

  lemma ConfigurationIsGone(cr: Cr, sole: set<Component>, now: Snapshot)
    requires CleanupPass.AllAchieved(cr, sole, |CleanupStages|, now)
    ensures Teardown.ConfigurationGone(cr, now.store)
  {
    CleanupPass.StageAchieved(cr, sole, 7, now);
  }

  /** Once every cleanup stage has achieved its goal, of all that the stages write only leftovers are there. */
  lemma OnlyLeftovers(cr: Cr, sole: set<Component>, now: Snapshot, k: Key)
    requires CleanupPass.AllAchieved(cr, sole, |CleanupStages|, now)
    requires k in now.store && Operator.StageMark(cr)(k, now.store[k])
    ensures Leftover(cr, k, now.store[k])
  {
    ServicesAreGone(cr, sole, now);
    Install.FootprintGone(cr, sole, now);
    NothingInstalledLeft(cr, now.store, k);
    ConfigurationIsGone(cr, sole, now);
    NothingSyncedLeft(cr, now.store, k);
  }

  lemma SameStackSameWrites(a: Cr, b: Cr)
    requires SameStack(a, b)
    ensures ConfigurationSync.StackWrites(a) == ConfigurationSync.StackWrites(b) && AlertmanagerSecret(a) == AlertmanagerSecret(b)
    ensures ConfigurationSync.BlackBoxConfig(a) == ConfigurationSync.BlackBoxConfig(b) && a.OperatorNs() == b.OperatorNs()
    ensures ConfigurationSync.GeneratedRule(a) == ConfigurationSync.GeneratedRule(b) && a.Descoped() == b.Descoped()
  {
  }

  lemma SameStackSameSync(a: Cr, b: Cr, k: Key, o: Obj)
    requires SameStack(a, b)
    ensures ConfigurationSync.SyncMark(a)(k, o) == ConfigurationSync.SyncMark(b)(k, o)
  {
    SameStackSameWrites(a, b);
    assert ConfigurationSync.StackMark(a)(k, o) == ConfigurationSync.StackMark(b)(k, o);
  }

  lemma SameStackSameMark(a: Cr, b: Cr)
    requires SameStack(a, b)
    ensures forall k, o :: Operator.StageMark(a)(k, o) == Operator.StageMark(b)(k, o)
  {
    Install.SameStackSameFootprint(a, b);
    forall k, o ensures Operator.StageMark(a)(k, o) == Operator.StageMark(b)(k, o) {
      SameStackSameSync(a, b, k, o);
    }
  }

  function Crs(os: seq<Operator.Obs>): (crs: seq<Cr>)
    ensures |crs| == |os| && forall i :: 0 <= i < |os| ==> crs[i] == os[i].cr
  {
    seq(|os|, i requires 0 <= i < |os| => os[i].cr)
  }

  /** The passes over a live resource: one per version of it and setting. */
  method Live(c: Cluster, os: seq<Operator.Obs>, settings: seq<Operator.Setting>)
    requires os != [] && |settings| == |os| && ValidHistory(Crs(os))
    requires forall i :: 0 <= i < |os| ==> TokenExpiry.Second <= settings[i].began <= settings[i].ended
    modifies c
    ensures old(c.log) <= c.log && Adds(old(c.store), c.store, Operator.StageMark(os[0].cr))
  {
    for i := 0 to |os|
      invariant old(c.log) <= c.log
      invariant Adds(old(c.store), c.store, Operator.StageMark(os[0].cr))
    {
      ghost var s := c.store;
      HistoryKeepsStack(Crs(os), i);
      SameStackSameMark(os[0].cr, os[i].cr);
      var _, _, _, _ := Operator.RunInstallStages(c, os[i], settings[i], Operator.StageMark(os[0].cr));
      AddsOn(old(c.store), s, c.store, Operator.StageMark(os[0].cr));
    }
  }

  /** The cleanup so far: objects only went away, and only such as it goes by. */
  ghost predicate Pruned(cr: Cr, full: Store, now: Store) {
    Submap(now, full) && forall k :: k in full && !Teardown.Erasable(cr, full, k, full[k]) ==> k in now && now[k] == full[k]
  }

  /**
   Any number of passes over any history of the custom resource that the webhook accepts and that keeps the
   mode, with all stages, and then any number of cleanup passes under the last version, all with any failures.
   `full` is the store in which cleanup made its first call, number `at`: once a cleanup pass finishes, of what is new in it exactly the leftovers
   are there.
   */
  method Life(c: Cluster, os: seq<Operator.Obs>, settings: seq<Operator.Setting>, attempts: nat) returns (finished: bool, ghost full: Store, ghost at: nat)
    requires os != [] && |settings| == |os| && ValidHistory(Crs(os))
    requires forall i :: 0 <= i < |os| ==> TokenExpiry.Second <= settings[i].began <= settings[i].ended
    modifies c
    ensures old(c.log) <= c.log && |old(c.log)| <= at && CleanupPass.HandedOver(c.log, at, full, c.store, attempts)
    ensures Adds(old(c.store), full, Operator.StageMark(os[|os| - 1].cr)) && Pruned(os[|os| - 1].cr, full, c.store)
    ensures finished ==> forall k :: k !in old(c.store) ==> (k in c.store <==> k in full && Leftover(os[|os| - 1].cr, k, full[k]))
  {
    ghost var start := c.store;
    Live(c, os, settings);
    full, at := c.store, |c.log|;
    ghost var before := c.log;
    var last := os[|os| - 1].cr;
    HistoryKeepsStack(Crs(os), |os| - 1);
    SameStackSameMark(os[0].cr, last);
    AddsWiden(start, full, Operator.StageMark(os[0].cr), Operator.StageMark(last));
    finished := false;
    for i := 0 to attempts
      invariant !finished && Pruned(last, full, c.store)
      invariant before <= c.log && CleanupPass.HandedOver(c.log, at, full, c.store, i)
    {
      finished := Die(c, last, start, full);
      if finished { break; }
    }
  }

  method Die(c: Cluster, cr: Cr, ghost start: Store, ghost full: Store) returns (finished: bool)
    requires Adds(start, full, Operator.StageMark(cr)) && Pruned(cr, full, c.store)
    modifies c
    ensures Pruned(cr, full, c.store)
    ensures old(c.log) <= c.log && |old(c.log)| < |c.log| && c.log[|old(c.log)|].pre.store == old(c.store)
    ensures finished ==> forall k :: k !in start ==> (k in c.store <==> k in full && Leftover(cr, k, full[k]))
  {
    ghost var mid, m := c.store, |c.log|;
    var done, _, _ := CleanupPass.RunStages(c, cr);
    finished := done;
    PrunedOn(cr, Teardown.Sole(cr, mid), full, mid, c.log[m..], c.store);
    if finished { ExactlyLeftovers(cr, Teardown.Sole(cr, mid), start, full, c.Now()); }
  }

  lemma PrunedOn(cr: Cr, sole: set<Component>, full: Store, mid: Store, steps: seq<Step>, now: Store)
    requires Pruned(cr, full, mid) && Teardown.Torn(cr, sole, Teardown.From(cr, mid), steps, now)
    ensures Pruned(cr, full, now)
  {
    Teardown.TornShrinks(cr, sole, Teardown.From(cr, mid), steps, now);
    forall k | k in full && !Teardown.Erasable(cr, full, k, full[k]) ensures k in now && now[k] == full[k] {
      if Teardown.Erasable(cr, mid, k, full[k]) { Teardown.ErasableGrows(cr, full, mid, k, full[k]); }
      Teardown.TornSpares(cr, sole, Teardown.From(cr, mid), steps, now, k);
    }
  }

  lemma ExactlyLeftovers(cr: Cr, sole: set<Component>, start: Store, full: Store, now: Snapshot)
    requires Adds(start, full, Operator.StageMark(cr)) && Pruned(cr, full, now.store)
    requires CleanupPass.AllAchieved(cr, sole, |CleanupStages|, now)
    ensures forall k :: k !in start ==> (k in now.store <==> k in full && Leftover(cr, k, full[k]))
  {
    forall k | k !in start ensures k in now.store <==> k in full && Leftover(cr, k, full[k]) {
      if k in now.store { OnlyLeftovers(cr, sole, now, k); }
      if k in full && Leftover(cr, k, full[k]) { LeftoversOutlast(cr, full, k, full[k]); }
    }
  }
}
