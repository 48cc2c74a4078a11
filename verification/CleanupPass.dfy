/** The stage loop over a custom resource that is being deleted, one pass and many. */
module CleanupPass {
  import opened Kube
  import opened Observability
  import opened Stack
  import opened Teardown
  import TokenRefreshers

  /** The components that the stages before this one have brought down. */
  function DownBefore(stage: Stage): set<Component> {
    match stage
    case GrafanaConfigurationStage => {PrometheusServer}
    case PrometheusInstallationStage => Operated
    case GrafanaInstallationStage => Operated
    case AlertmanagerInstallationStage => {PrometheusServer}
    case PromtailInstallationStage => {PrometheusServer}
    case LoggingInstallationStage => Everything
    case ConfigurationStage => Everything
    case CsvStage => Everything
    case _ => {}
  }

  ghost predicate AllAchieved(cr: Cr, sole: set<Component>, i: nat, now: Snapshot)
    requires i <= |CleanupStages|
  {
    forall j :: 0 <= j < i ==> Achieved(cr, sole, CleanupStages[j], now)
  }

  lemma StageAchieved(cr: Cr, sole: set<Component>, i: nat, now: Snapshot)
    requires AllAchieved(cr, sole, |CleanupStages|, now) && i < |CleanupStages|
    ensures Achieved(cr, sole, CleanupStages[i], now)
  {
  }

  lemma NoneOf(s: Store, ks: seq<Key>, k: Key)
    requires Absent(s, ks) && k in ks
    ensures k !in s
  {
  }

  lemma PrometheusGone(cr: Cr, sole: set<Component>, now: Snapshot)
    requires AllAchieved(cr, sole, |CleanupStages|, now)
    ensures forall k :: k in PrometheusFrontKeys(cr) + PrometheusBackKeys(cr) + PrometheusInstallationKeys(cr) ==> k !in now.store
  {
    StageAchieved(cr, sole, 0, now);
    StageAchieved(cr, sole, 2, now);
  }

  lemma GrafanaGone(cr: Cr, sole: set<Component>, now: Snapshot)
    requires AllAchieved(cr, sole, |CleanupStages|, now) && !cr.Descoped()
    ensures forall k :: k in [GrafanaCr(cr), GrafanaOperator(cr)] + GrafanaBackKeys(cr) + GrafanaInstallationKeys(cr) ==> k !in now.store
  {
    StageAchieved(cr, sole, 1, now);
    StageAchieved(cr, sole, 3, now);
    NoneOf(now.store, [GrafanaCr(cr)], GrafanaCr(cr));
  }

  lemma AlertmanagerGone(cr: Cr, sole: set<Component>, now: Snapshot)
    requires AllAchieved(cr, sole, |CleanupStages|, now)
    ensures forall k :: k in [AlertmanagerCr(cr)] + AlertmanagerBackKeys(cr) ==> k !in now.store
  {
    StageAchieved(cr, sole, 4, now);
    NoneOf(now.store, [AlertmanagerCr(cr)], AlertmanagerCr(cr));
  }

  lemma SyncedAreGone(cr: Cr, sole: set<Component>, now: Snapshot)
    requires AllAchieved(cr, sole, |CleanupStages|, now)
    ensures ConfigurationGone(cr, now.store)
  {
    StageAchieved(cr, sole, 7, now);
  }

  lemma ResourcesGone(cr: Cr, s: Store, k: Key)
    requires ConfigurationGone(cr, s) && k in ResourcesKeys(cr)
    ensures k !in s
  {
  }

  lemma PromtailGone(cr: Cr, sole: set<Component>, now: Snapshot)
    requires AllAchieved(cr, sole, |CleanupStages|, now)
    ensures CredentialsSecret(cr) !in now.store
    ensures !PromtailOff(cr) ==> forall k :: k in PromtailKeys(cr) ==> k !in now.store
  {
    StageAchieved(cr, sole, 5, now);
    StageAchieved(cr, sole, 8, now);
  }

  /** All that cleanup goes by names for, but for logging's own. */
  predicate FixedStack(cr: Cr, k: Key) {
    Fixed(cr, k) && k != LoggingSubscription() && k != LoggingInstance() && k != LogForwarderInstance()
  }

  /** A finished cleanup leaves nothing of what it goes by a name for, in either namespace. */
  lemma NamedAreGone(cr: Cr, sole: set<Component>, now: Snapshot, k: Key)
    requires AllAchieved(cr, sole, |CleanupStages|, now) && FixedStack(cr, k)
    ensures k !in now.store
  {
    PrometheusGone(cr, sole, now);
    if !cr.Descoped() { GrafanaGone(cr, sole, now); }
    AlertmanagerGone(cr, sole, now);
    PromtailGone(cr, sole, now);
    SyncedAreGone(cr, sole, now);
    if k in ResourcesKeys(cr) { ResourcesGone(cr, now.store, k); }
    Listed(cr, k);
  }

  lemma Listed(cr: Cr, k: Key)
    requires FixedStack(cr, k)
    ensures
      || k in PrometheusFrontKeys(cr) + PrometheusBackKeys(cr) + PrometheusInstallationKeys(cr)
      || (!cr.Descoped() && k in [GrafanaCr(cr), GrafanaOperator(cr)] + GrafanaBackKeys(cr) + GrafanaInstallationKeys(cr))
      || k in [AlertmanagerCr(cr), CredentialsSecret(cr)] + AlertmanagerBackKeys(cr) + ResourcesKeys(cr)
      || (!PromtailOff(cr) && k in PromtailKeys(cr))
  {
  }

  /** Nor of what it goes by a label for, in the resource's own. */
  lemma LabelledAreGone(cr: Cr, sole: set<Component>, now: Snapshot, k: Key)
    requires AllAchieved(cr, sole, |CleanupStages|, now) && k in now.store
    ensures !Swept(cr, k, now.store[k])
  {
    SyncedAreGone(cr, sole, now);
    NotLeft(now.store, k, ManagedBy);
    NotLeft(now.store, k, TokenRefreshers.ProxyLabels);
    Unswept(cr, now.store, k);
  }

  lemma NotLeft(s: Store, k: Key, sel: Labels)
    requires k in s
    ensures NoneLeft(s, k.kind, k.ns, sel) ==> !Matches(s[k], sel)
  {
    if Matches(s[k], sel) { assert k in Selected(s, k.kind, k.ns, sel); }
  }

  lemma Unswept(cr: Cr, s: Store, k: Key)
    requires ConfigurationGone(cr, s) && k in s
    requires NoneLeft(s, k.kind, k.ns, ManagedBy) ==> !Matches(s[k], ManagedBy)
    requires NoneLeft(s, k.kind, k.ns, TokenRefreshers.ProxyLabels) ==> !Matches(s[k], TokenRefreshers.ProxyLabels)
    ensures !Swept(cr, k, s[k])
  {
  }

  lemma OneMoreAchieved(cr: Cr, sole: set<Component>, i: nat, now: Snapshot)
    requires i < |CleanupStages| && AllAchieved(cr, sole, i, now) && Achieved(cr, sole, CleanupStages[i], now)
    ensures AllAchieved(cr, sole, i + 1, now)
  {
    forall j | 0 <= j < i + 1 ensures Achieved(cr, sole, CleanupStages[j], now) {
      if j == i { assert CleanupStages[j] == CleanupStages[i]; }
    }
  }

  lemma AllAchievedStay(cr: Cr, sole: set<Component>, i: nat, a: Snapshot, b: Snapshot)
    requires i <= |CleanupStages| && AllAchieved(cr, sole, i, a) && Waned(cr, sole, a, b)
    ensures AllAchieved(cr, sole, i, b)
  {
    forall j | 0 <= j < i ensures Achieved(cr, sole, CleanupStages[j], b) {
      AchievedStays(cr, sole, CleanupStages[j], a, b);
    }
  }

  lemma AchievedWeakens(cr: Cr, strong: set<Component>, weak: set<Component>, now: Snapshot)
    requires weak <= strong
    requires AllAchieved(cr, strong, |CleanupStages|, now)
    ensures AllAchieved(cr, weak, |CleanupStages|, now)
  {
    forall j | 0 <= j < |CleanupStages| ensures Achieved(cr, weak, CleanupStages[j], now) {
      assert Achieved(cr, strong, CleanupStages[j], now);
    }
  }

  /** The component that a stage brings down. */
  function BringsDown(stage: Stage): set<Component> {
    match stage
    case PrometheusConfigurationStage => {PrometheusServer}
    case GrafanaConfigurationStage => {GrafanaServer}
    case AlertmanagerInstallationStage => {AlertmanagerServer}
    case _ => {}
  }

  lemma AchievedBringsDown(cr: Cr, sole: set<Component>, stage: Stage, now: Snapshot)
    requires Achieved(cr, sole, stage, now)
    ensures AllDown(cr, sole, now, BringsDown(stage))
  {
  }

  /** The order of the stages is the order their deletions need. */
  lemma InOrder(cr: Cr, sole: set<Component>, i: nat, now: Snapshot)
    requires i < |CleanupStages| && AllAchieved(cr, sole, i, now)
    ensures AllDown(cr, sole, now, DownBefore(CleanupStages[i]))
  {
    forall j | 0 <= j < i ensures AllDown(cr, sole, now, BringsDown(CleanupStages[j])) {
      AchievedBringsDown(cr, sole, CleanupStages[j], now);
    }
    DownInOrder(cr, sole, i, now);
  }

  lemma DownInOrder(cr: Cr, sole: set<Component>, i: nat, now: Snapshot)
    requires i < |CleanupStages| && forall j :: 0 <= j < i ==> AllDown(cr, sole, now, BringsDown(CleanupStages[j]))
    ensures AllDown(cr, sole, now, DownBefore(CleanupStages[i]))
  {
    if i > 0 { assert AllDown(cr, sole, now, BringsDown(CleanupStages[0])); }
    if i > 1 { assert AllDown(cr, sole, now, BringsDown(CleanupStages[1])); }
    if i > 4 { assert AllDown(cr, sole, now, BringsDown(CleanupStages[4])); }
  }

  ghost predicate OneFewer(a: set<Key>, b: set<Key>) {
    exists k :: k in a && b == a - {k}
  }

  method CleanupStage(c: Cluster, cr: Cr, stage: Stage, ghost sole: set<Component>, ghost start: Origin, ghost n: nat) returns (status: StageStatus)
    requires Launched(cr, sole, start, n, c.log, c.store)
    requires AllDown(cr, sole, c.Now(), DownBefore(stage))
    modifies c
    ensures Progress(cr, sole, start, n, old(c.log), old(c.Now()), c.log, c.Now())
    ensures status.ResultSuccess? ==> Achieved(cr, sole, stage, c.Now())
    ensures stage != CsvStage && cr.ns != LoggingNs ==> OperatorCsvs(c.store, cr.ns) == OperatorCsvs(old(c.store), cr.ns)
    ensures stage != CsvStage && Smooth(c, cr, old(c.workloads)) && LoggingSound(old(c.store)) ==> status.ResultSuccess?
    ensures stage == CsvStage && c.Reliable() ==>
      if OperatorCsvs(old(c.store), cr.ns) == {} then status.ResultSuccess?
      else status.ResultInProgress? && OneFewer(OperatorCsvs(old(c.store), cr.ns), OperatorCsvs(c.store, cr.ns))
    ensures c.Calm(old(c.workloads), c.workloads)
    ensures stage == PrometheusConfigurationStage ==> |old(c.log)| < |c.log|
  {
    match stage
    case PrometheusConfigurationStage => status := CleanupPrometheusConfiguration(c, cr, sole, start, n);
    case GrafanaConfigurationStage => status := CleanupGrafanaConfiguration(c, cr, sole, start, n);
    case PrometheusInstallationStage => status := CleanupPrometheusInstallation(c, cr, sole, start, n);
    case GrafanaInstallationStage => status := CleanupGrafanaInstallation(c, cr, sole, start, n);
    case AlertmanagerInstallationStage => status := CleanupAlertmanagerInstallation(c, cr, sole, start, n);
    case PromtailInstallationStage => status := CleanupPromtailInstallation(c, cr, sole, start, n);
    case LoggingInstallationStage => status := CleanupLoggingInstallation(c, cr, sole, start, n);
    case ConfigurationStage => status := CleanupConfiguration(c, cr, sole, start, n);
    case TokenRequestStage => status := CleanupTokenRequest(c, cr, sole, start, n);
    case CsvStage => status := CleanupCsv(c, cr, sole, start, n);
    case MigrationStage => status := ResultSuccess;
  }

  lemma SoundStays(a: Store, b: Store)
    requires LoggingSound(a) && Submap(b, a)
    ensures LoggingSound(b)
  {
    forall k | LoggingManaged(b, k) ensures InstalledCsv(b[k]) != "" {
      assert LoggingManaged(a, k);
    }
  }

  /** Stage `i` of a pass: what the stages before it achieved still stands. */
  method NextStage(c: Cluster, cr: Cr, i: nat, ghost sole: set<Component>, ghost start: Origin, ghost n: nat) returns (status: StageStatus)
    requires i < |CleanupStages| && Launched(cr, sole, start, n, c.log, c.store) && AllAchieved(cr, sole, i, c.Now())
    modifies c
    ensures Progress(cr, sole, start, n, old(c.log), old(c.Now()), c.log, c.Now())
    ensures status.ResultSuccess? ==> AllAchieved(cr, sole, i + 1, c.Now())
    ensures i < 9 && cr.ns != LoggingNs ==> OperatorCsvs(c.store, cr.ns) == OperatorCsvs(old(c.store), cr.ns)
    ensures i < 9 && Smooth(c, cr, old(c.workloads)) && LoggingSound(old(c.store)) ==> status.ResultSuccess?
    ensures i == 9 && c.Reliable() ==>
      if OperatorCsvs(old(c.store), cr.ns) == {} then status.ResultSuccess?
      else status.ResultInProgress? && OneFewer(OperatorCsvs(old(c.store), cr.ns), OperatorCsvs(c.store, cr.ns))
    ensures c.Calm(old(c.workloads), c.workloads)
    ensures i == 0 ==> |old(c.log)| < |c.log|
  {
    InOrder(cr, sole, i, c.Now());
    ghost var was := c.Now();
    var stage := CleanupStages[i];
    assert stage == CsvStage <==> i == 9;
    status := CleanupStage(c, cr, stage, sole, start, n);
    AllAchievedStay(cr, sole, i, was, c.Now());
    if status == ResultSuccess { OneMoreAchieved(cr, sole, i, c.Now()); }
  }

  /** What a pass leaves of the operator ClusterServiceVersions when nothing gets in its way. */
  ghost predicate Advances(cr: Cr, a: Store, b: Store, finished: bool) {
    var before, after := OperatorCsvs(a, cr.ns), OperatorCsvs(b, cr.ns);
    && (finished || |after| < |before|)
    && (cr.ns != LoggingNs ==> if before == {} then finished else !finished && OneFewer(before, after))
  }

  lemma LastStageAdvances(cr: Cr, a: Store, mid: Store, b: Store, status: StageStatus)
    requires Submap(mid, a) && (cr.ns != LoggingNs ==> OperatorCsvs(mid, cr.ns) == OperatorCsvs(a, cr.ns))
    requires
      if OperatorCsvs(mid, cr.ns) == {} then status.ResultSuccess?
      else status.ResultInProgress? && OneFewer(OperatorCsvs(mid, cr.ns), OperatorCsvs(b, cr.ns))
    ensures Advances(cr, a, b, status.ResultSuccess?)
  {
    var before, between, after := OperatorCsvs(a, cr.ns), OperatorCsvs(mid, cr.ns), OperatorCsvs(b, cr.ns);
    assert between <= before;
    Smaller(between, before);
  }

  lemma {:induction false} Smaller(a: set<Key>, b: set<Key>)
    requires a <= b
    ensures |a| <= |b|
  {
    assert b == a + (b - a);
  }

  /** No call fails, no wait has anything to wait for, and every logging subscription names what it installed. */
  ghost predicate Unhindered(c: Cluster, cr: Cr, was: Snapshot) {
    Smooth(c, cr, was.workloads) && LoggingSound(was.store)
  }

  /** The first `i` stages have succeeded since `was`. */
  ghost predicate Underway(c: Cluster, cr: Cr, sole: set<Component>, n: nat, before: seq<Step>, was: Snapshot, log: seq<Step>, now: Snapshot, i: nat)
    requires i <= |CleanupStages|
  {
    && Progress(cr, sole, From(cr, was.store), n, before, was, log, now)
    && AllAchieved(cr, sole, i, now)
    && c.Calm(was.workloads, now.workloads)
    && (Unhindered(c, cr, was) && i < 10 && cr.ns != LoggingNs ==> OperatorCsvs(now.store, cr.ns) == OperatorCsvs(was.store, cr.ns))
  }

  /** One more of them. */
  method StageOfPass(c: Cluster, cr: Cr, i: nat, ghost sole: set<Component>, ghost n: nat, ghost before: seq<Step>, ghost was: Snapshot) returns (status: StageStatus)
    requires i < |CleanupStages| && Underway(c, cr, sole, n, before, was, c.log, c.Now(), i)
    modifies c
    ensures Progress(cr, sole, From(cr, was.store), n, before, was, c.log, c.Now()) && c.Calm(was.workloads, c.workloads)
    ensures (i == 0 ==> |before| < |c.log|) && old(c.log) <= c.log
    ensures status.ResultSuccess? ==> Underway(c, cr, sole, n, before, was, c.log, c.Now(), i + 1)
    ensures Unhindered(c, cr, was) ==> if i < 9 then status.ResultSuccess? else Advances(cr, was.store, c.store, status.ResultSuccess?)
  {
    ghost var mid, upTo := c.Now(), c.log;
    if Unhindered(c, cr, was) { SoundStays(was.store, mid.store); }
    status := NextStage(c, cr, i, sole, From(cr, was.store), n);
    ProgressOn(cr, sole, From(cr, was.store), n, before, was, upTo, mid, c.log, c.Now());
    if Unhindered(c, cr, was) && i == 9 { LastStageAdvances(cr, was.store, mid.store, c.store, status); }
  }

  /**
   One pass: the stages in order, up to the first that does not succeed. Every API call it makes is a
   proper one; if it finishes, every stage's goal holds at once.
   */
  method RunStages(c: Cluster, cr: Cr) returns (finished: bool, stage: Stage, status: StageStatus)
    modifies c
    ensures Started(cr, Sole(cr, old(c.store)), From(cr, old(c.store)), |old(c.log)|, c.log, c.store) && old(c.log) <= c.log
    ensures finished ==> AllAchieved(cr, Sole(cr, old(c.store)), |CleanupStages|, c.Now())
    ensures finished <==> status.ResultSuccess?
    ensures TokenRefreshers.Covered(old(c.store)) ==>
      TokenRefreshers.Covered(c.store) && TokenRefreshers.CoveredThroughout(c.log, |old(c.log)|)
    ensures Smooth(c, cr, old(c.workloads)) && LoggingSound(old(c.store)) ==>
      Advances(cr, old(c.store), c.store, finished) && Submap(c.store, old(c.store))
    ensures c.Calm(old(c.workloads), c.workloads)
    ensures |old(c.log)| < |c.log| && c.log[|old(c.log)|].pre.store == old(c.store)
    ensures Spared(cr, old(c.store), |old(c.log)|, c.log, c.store)
  {
    ghost var n, before, sole, was := |c.log|, c.log, Sole(cr, c.store), c.Now();
    finished, stage, status := true, CleanupStages[0], ResultSuccess;
    for i := 0 to |CleanupStages|
      invariant i > 0 ==> n < |c.log|
      invariant finished && status.ResultSuccess? && Underway(c, cr, sole, n, before, was, c.log, c.Now(), i)
      invariant Unhindered(c, cr, was) && i == 10 ==> Advances(cr, was.store, c.store, finished)
    {
      stage := CleanupStages[i];
      status := StageOfPass(c, cr, i, sole, n, before, was);
      finished := status == ResultSuccess;
      if !finished { break; }
    }
    CoverHolds(cr, sole, From(cr, was.store), n, c.log, c.store);
    TornBegins(cr, sole, From(cr, was.store), c.log[n..], c.store);
    ForeignSpared(cr, sole, was.store, n, c.log, c.store);
  }

  /** Cleanup takes over at call number `at`, in the store `full`; without an attempt at it that is the last store. */
  ghost predicate HandedOver(log: seq<Step>, at: nat, full: Store, now: Store, attempts: nat) {
    at <= |log| && if attempts == 0 then at == |log| && full == now else at < |log| && log[at].pre.store == full
  }

  lemma CoverHolds(cr: Cr, sole: set<Component>, start: Origin, n: nat, log: seq<Step>, now: Store)
    requires Started(cr, sole, start, n, log, now)
    ensures TokenRefreshers.Covered(start.store) ==> TokenRefreshers.Covered(now) && TokenRefreshers.CoveredThroughout(log, n)
  {
    if TokenRefreshers.Covered(start.store) {
      TornKeepsCover(cr, sole, start, log[n..], now);
      forall i | n <= i < |log| ensures TokenRefreshers.Covered(log[i].post.store) {
        assert log[i] == log[n..][i - n];
      }
    }
  }

  /** Whatever is not the stack's is there after every call since the log had `n` entries, as it was. */
  ghost predicate Spared(cr: Cr, start: Store, n: nat, log: seq<Step>, now: Store) {
    forall k :: k in start && !Erasable(cr, start, k, start[k]) ==>
      k in now && now[k] == start[k] && forall i :: n <= i < |log| ==> k in log[i].post.store && log[i].post.store[k] == start[k]
  }

  /** Cleanup deletes nothing else, wherever it stops. */
  lemma ForeignSpared(cr: Cr, sole: set<Component>, start: Store, n: nat, log: seq<Step>, now: Store)
    requires Started(cr, sole, From(cr, start), n, log, now)
    ensures Spared(cr, start, n, log, now)
  {
    forall k | k in start && !Erasable(cr, start, k, start[k])
      ensures k in now && now[k] == start[k] && forall i :: n <= i < |log| ==> k in log[i].post.store && log[i].post.store[k] == start[k]
    {
      TornSpares(cr, sole, From(cr, start), log[n..], now, k);
      forall i | n <= i < |log| ensures k in log[i].post.store && log[i].post.store[k] == start[k] {
        assert log[i] == log[n..][i - n];
      }
    }
  }

  /**
   So a ClusterServiceVersion of the namespace stays through every call unless its name begins like those of the
   two operators, or it is the one that a logging subscription of the operator's names as installed.
   */
  lemma OtherVersionsStay(cr: Cr, start: Store, n: nat, log: seq<Step>, now: Store, name: string)
    requires Spared(cr, start, n, log, now) && Key(Csv, cr.ns, name) in start
    requires !(|name| >= 17 && name[..17] == "grafana-operator.") && !(|name| >= 19 && name[..19] == "prometheusoperator.")
    requires cr.ns == LoggingNs ==> !LoggingInstalled(start, name)
    ensures Key(Csv, cr.ns, name) in now
    ensures forall i :: n <= i < |log| ==> Key(Csv, cr.ns, name) in log[i].post.store
  {
    var k := Key(Csv, cr.ns, name);
    assert !Erasable(cr, start, k, start[k]);
  }

  lemma SparedOn(cr: Cr, start: Store, n: nat, before: seq<Step>, mid: Store, log: seq<Step>, now: Store)
    requires Spared(cr, start, n, before, mid) && Submap(mid, start) && n <= |before| && before <= log
    requires Spared(cr, mid, |before|, log, now)
    ensures Spared(cr, start, n, log, now)
  {
    forall k | k in start && !Erasable(cr, start, k, start[k])
      ensures k in now && now[k] == start[k] && forall i :: n <= i < |log| ==> k in log[i].post.store && log[i].post.store[k] == start[k]
    {
      if Erasable(cr, mid, k, start[k]) { ErasableGrows(cr, start, mid, k, start[k]); }
      forall i | n <= i < |log| ensures k in log[i].post.store && log[i].post.store[k] == start[k] {
        if i < |before| { assert log[i] == before[i]; }
      }
    }
  }

  /**
   The order of a teardown, over every interleaving with the environment: when a subscription goes, both
   operated components are down; when a ClusterServiceVersion or a synced resource goes, all three are.
   It holds of each component for as long as nothing else can bring its workload back.
   */
  lemma TeardownOrder(cr: Cr, start: Store, n: nat, log: seq<Step>, now: Store, i: nat, x: Component)
    requires Started(cr, Sole(cr, start), From(cr, start), n, log, now) && n <= i < |log| && log[i].op.Del? && x in Sole(cr, start)
    ensures
      var gone, pre := log[i].op.key, log[i].pre;
      && (gone.kind in {Subscription, OperatorGroup, CatalogSource, Deployment, Namespace} && x != AlertmanagerServer ==> Down(cr, pre, x))
      && (gone.kind in {Csv, PrometheusRule, PodMonitor, GrafanaDashboard, DaemonSet, NetworkPolicy, ConfigMap} ==> Down(cr, pre, x))
      && (gone.kind in {ClusterRole, ClusterRoleBinding, ServiceAccount, Service} && x == PrometheusServer ==> Down(cr, pre, x))
  {
    TornIsProper(cr, Sole(cr, start), From(cr, start), log[n..], now, i - n);
    assert log[i] == log[n..][i - n];
    DeletedOnlyDown(cr, Sole(cr, start), From(cr, start), log[i], x);
  }

  lemma DeletedOnlyDown(cr: Cr, sole: set<Component>, start: Origin, step: Step, x: Component)
    requires Proper(cr, sole, start, step) && step.op.Del? && x in sole
    ensures x in Needs(step.op.key.kind) ==> Down(cr, step.pre, x)
  {
  }

  /** Grafana's controller starts the workload as soon as the data source is gone. */
  function Eager(cr: Cr): (nat, Store, set<Key>) -> set<Key> {
    (n, s, ws) => if GrafanaDatasource(cr) in s then {} else {Workload(cr, GrafanaServer)}
  }

  function TwoGrafanas(cr: Cr, other: Key): Store {
    map[GrafanaCr(cr) := Blank, other := Blank, GrafanaDatasource(cr) := Blank, PrometheusSubscription(cr) := Blank]
  }

  /** A second Grafana, and the data source that holds its controller back. */
  ghost predicate Lurking(c: Cluster, cr: Cr, other: Key, s: Snapshot) {
    && c.Reliable() && c.env == Eager(cr) && other.kind == Grafana && other != GrafanaCr(cr)
    && other in s.store && GrafanaDatasource(cr) in s.store && Workload(cr, GrafanaServer) !in s.workloads
  }

  lemma Lurks(c: Cluster, cr: Cr, other: Key)
    requires c.store == TwoGrafanas(cr, other) && c.workloads == {} && c.Reliable() && c.env == Eager(cr)
    requires other.kind == Grafana && other != GrafanaCr(cr)
    ensures Lurking(c, cr, other, c.Now())
  {
  }

  lemma AfterPrometheus(c: Cluster, cr: Cr, other: Key, was: Snapshot, now: Snapshot, status: StageStatus)
    requires Lurking(c, cr, other, was) && Awaited(cr, PrometheusServer) !in was.workloads
    requires WindsDown(c, PrometheusFrontKeys(cr), Awaited(cr, PrometheusServer), PrometheusBackKeys(cr), was, now, status)
    ensures Lurking(c, cr, other, now) && status.ResultSuccess?
  {
    var guard := GrafanaDatasource(cr);
    assert forall k :: k in PrometheusFrontKeys(cr) || k in PrometheusBackKeys(cr) ==> k.kind !in {Grafana, GrafanaDataSource};
    assert c.Shuns(Awaited(cr, PrometheusServer), guard) && c.Shuns(Workload(cr, GrafanaServer), guard);
    assert GuardsWait(c, Awaited(cr, PrometheusServer), guard, was.store, PrometheusFrontKeys(cr));
  }

  lemma AfterGrafana(c: Cluster, cr: Cr, other: Key, was: Snapshot, now: Snapshot, status: StageStatus)
    requires Lurking(c, cr, other, was)
    requires WindsDown(c, [GrafanaCr(cr)], Awaited(cr, GrafanaServer), GrafanaBackKeys(cr), was, now, status)
    ensures other in now.store && status.ResultSuccess?
  {
    var guard := GrafanaDatasource(cr);
    assert other !in [GrafanaCr(cr)] && other !in GrafanaBackKeys(cr);
    assert c.Shuns(Workload(cr, GrafanaServer), guard);
    assert GuardsWait(c, Workload(cr, GrafanaServer), guard, was.store, [GrafanaCr(cr)]);
  }

  lemma Respawned(c: Cluster, cr: Cr, other: Key)
    requires c.env == Eager(cr) && other in c.store && GrafanaDatasource(cr) !in c.store
    requires other.kind == Grafana && other.ns == cr.ns
    ensures Workload(cr, GrafanaServer) in c.Moved()
  {
    assert Spawns(other, Workload(cr, GrafanaServer));
  }

  /** The first two stages succeed, although the workload is about to come back. */
  method FirstStage(c: Cluster, cr: Cr, ghost other: Key, ghost sole: set<Component>, ghost start: Origin) returns (status: StageStatus)
    requires Launched(cr, sole, start, 0, c.log, c.store) && Lurking(c, cr, other, c.Now())
    requires Awaited(cr, PrometheusServer) !in c.workloads
    modifies c
    ensures Launched(cr, sole, start, 0, c.log, c.store) && Lurking(c, cr, other, c.Now())
    ensures status.ResultSuccess? && AllDown(cr, sole, c.Now(), {PrometheusServer})
  {
    ghost var was := c.Now();
    status := CleanupPrometheusConfiguration(c, cr, sole, start, 0);
    AfterPrometheus(c, cr, other, was, c.Now(), status);
    AchievedBringsDown(cr, sole, PrometheusConfigurationStage, c.Now());
  }

  method SecondStage(c: Cluster, cr: Cr, ghost other: Key, ghost sole: set<Component>, ghost start: Origin) returns (status: StageStatus)
    requires Launched(cr, sole, start, 0, c.log, c.store) && Lurking(c, cr, other, c.Now())
    requires !cr.Descoped() && other.ns == cr.ns && AllDown(cr, sole, c.Now(), {PrometheusServer})
    modifies c
    ensures Launched(cr, sole, start, 0, c.log, c.store)
    ensures status.ResultSuccess? && AllDown(cr, sole, c.Now(), Operated)
    ensures Workload(cr, GrafanaServer) in c.Moved()
  {
    ghost var was := c.Now();
    status := CleanupGrafanaConfiguration(c, cr, sole, start, 0);
    AfterGrafana(c, cr, other, was, c.Now(), status);
    DatasourceGone(cr, c.store);
    Respawned(c, cr, other);
  }

  lemma DatasourceGone(cr: Cr, s: Store)
    requires Absent(s, GrafanaBackKeys(cr))
    ensures GrafanaDatasource(cr) !in s
  {
    assert GrafanaBackKeys(cr)[0] == GrafanaDatasource(cr);
  }

  /**
   Why one Grafana only: a cleanup in a namespace with a second one. The first two stages succeed, Grafana's
   wait included; the other Grafana brings the workload back; and the third stage deletes the subscription
   while it runs.
   */
  method OtherGrafanaRespawns(cr: Cr, other: Key) returns (c: Cluster, ghost i: nat)
    requires !cr.Descoped() && other.kind == Grafana && other.ns == cr.ns && other != GrafanaCr(cr)
    ensures fresh(c) && c.Reliable() && Started(cr, Sole(cr, TwoGrafanas(cr, other)), From(cr, TwoGrafanas(cr, other)), 0, c.log, c.store)
    ensures i < |c.log| && c.log[i].op == Del(PrometheusSubscription(cr)) && !Down(cr, c.log[i].pre, GrafanaServer)
  {
    var start := TwoGrafanas(cr, other);
    ghost var sole := Sole(cr, start);
    c := new Cluster(start, {}, n => Healthy, Eager(cr), (n, k) => Shown(0, []));
    Lurks(c, cr, other);
    var status := FirstStage(c, cr, other, sole, From(cr, start));
    status := SecondStage(c, cr, other, sole, From(cr, start));
    i := |c.log|;
    status := CleanupPrometheusInstallation(c, cr, sole, From(cr, start), 0);
  }

  // ---------- An operator namespace of its own ----------

  /** The servers run where the operator does, and the store has what leads to them. */
  function Elsewhere(cr: Cr): Store {
    map[PrometheusCr(cr) := Blank, AlertmanagerCr(cr) := Blank, PrometheusSubscription(cr) := Blank]
  }

  function Servers(cr: Cr): set<Key> {
    {Workload(cr, PrometheusServer), Workload(cr, AlertmanagerServer)}
  }

  method NewElsewhere(cr: Cr) returns (c: Cluster)
    requires cr.OperatorNs() != cr.ns
    ensures fresh(c) && c.Idle() && Smooth(c, cr, c.workloads) && c.log == []
    ensures c.store == Elsewhere(cr) && c.workloads == Servers(cr) && LoggingSound(c.store)
  {
    c := new Cluster(Elsewhere(cr), Servers(cr), n => Healthy, (n, s, ws) => ws, (n, k) => Shown(0, []));
    assert "app.kubernetes.io/managed-by" in LoggingLabel;
  }

  /**
   Why the operator has to work in the resource's own namespace: the wait looks there, so it ends at once
   while Prometheus runs on in the namespace of the operator, whose subscription goes next.
   */
  method WaitLooksElsewhere(cr: Cr) returns (c: Cluster, ghost i: nat)
    requires cr.OperatorNs() != cr.ns
    ensures fresh(c) && c.Reliable() && Started(cr, Sole(cr, Elsewhere(cr)), From(cr, Elsewhere(cr)), 0, c.log, c.store)
    ensures i < |c.log| && c.log[i].op == Del(PrometheusSubscription(cr)) && !Down(cr, c.log[i].pre, PrometheusServer)
  {
    c := NewElsewhere(cr);
    SoleIff(cr, c.store);
    var status := PastTheWait(c, cr, Sole(cr, c.store), From(cr, c.store));
    i := |c.log|;
    status := CleanupPrometheusInstallation(c, cr, Sole(cr, Elsewhere(cr)), From(cr, Elsewhere(cr)), 0);
  }

  /** The stages up to the subscription succeed without Prometheus having stopped. */
  method PastTheWait(c: Cluster, cr: Cr, ghost sole: set<Component>, ghost start: Origin) returns (status: StageStatus)
    requires cr.OperatorNs() != cr.ns && c.Idle() && Smooth(c, cr, c.workloads) && Workload(cr, PrometheusServer) in c.workloads
    requires Launched(cr, sole, start, 0, c.log, c.store) && sole == {}
    modifies c
    ensures Launched(cr, sole, start, 0, c.log, c.store) && status.ResultSuccess?
    ensures Workload(cr, PrometheusServer) in c.Moved()
  {
    status := CleanupPrometheusConfiguration(c, cr, sole, start, 0);
    status := CleanupGrafanaConfiguration(c, cr, sole, start, 0);
  }

  lemma NoCsvElsewhere(cr: Cr)
    ensures OperatorCsvs(Elsewhere(cr), cr.ns) == {}
  {
  }

  lemma NoneToRemove(cr: Cr, a: Store, b: Store, finished: bool)
    requires Advances(cr, a, b, finished) && OperatorCsvs(a, cr.ns) == {}
    ensures finished
  {
  }

  /**
   So the whole pass finishes, custom resources, subscription and all, and neither server has stopped: in any
   such cluster where nothing fails, nothing is left to install and the environment stops nothing.
   */
  method ServersOutlive(c: Cluster, cr: Cr) returns (finished: bool)
    requires cr.OperatorNs() != cr.ns && c.Idle() && Smooth(c, cr, c.workloads) && LoggingSound(c.store)
    requires Servers(cr) <= c.workloads && OperatorCsvs(c.store, cr.ns) == {}
    modifies c
    ensures finished && AllAchieved(cr, Sole(cr, old(c.store)), |CleanupStages|, c.Now())
    ensures Started(cr, Sole(cr, old(c.store)), From(cr, old(c.store)), |old(c.log)|, c.log, c.store) && old(c.log) <= c.log
    ensures c.workloads == old(c.workloads) && PrometheusCr(cr) !in c.store && PrometheusSubscription(cr) !in c.store
  {
    ghost var was := c.store;
    var done, _, _ := RunStages(c, cr);
    finished := done;
    NoneToRemove(cr, was, c.store, finished);
    PrometheusIsGone(cr, Sole(cr, was), c.Now());
  }

  lemma PrometheusIsGone(cr: Cr, sole: set<Component>, now: Snapshot)
    requires AllAchieved(cr, sole, |CleanupStages|, now)
    ensures PrometheusCr(cr) !in now.store && PrometheusSubscription(cr) !in now.store
  {
    StageAchieved(cr, sole, 0, now);
    StageAchieved(cr, sole, 2, now);
    assert PrometheusFrontKeys(cr)[2] == PrometheusCr(cr) && PrometheusInstallationKeys(cr)[0] == PrometheusSubscription(cr);
  }

  /** And there is such a cluster. */
  method ServersOutliveHere(cr: Cr) returns (c: Cluster)
    requires cr.OperatorNs() != cr.ns
    ensures fresh(c) && c.workloads == Servers(cr) && PrometheusCr(cr) !in c.store
    ensures Started(cr, Sole(cr, Elsewhere(cr)), From(cr, Elsewhere(cr)), 0, c.log, c.store)
  {
    c := NewElsewhere(cr);
    NoCsvElsewhere(cr);
    var _ := ServersOutlive(c, cr);
  }

  /** Requeue until the pass finishes: N operator ClusterServiceVersions take at most N + 1 passes, and as a rule exactly that. */
  method Drain(c: Cluster, cr: Cr) returns (passes: nat)
    requires Smooth(c, cr, c.workloads) && LoggingSound(c.store)
    modifies c
    ensures old(c.log) <= c.log && Spared(cr, old(c.store), |old(c.log)|, c.log, c.store)
    ensures passes <= |OperatorCsvs(old(c.store), cr.ns)| + 1
    ensures cr.ns != LoggingNs ==> passes == |OperatorCsvs(old(c.store), cr.ns)| + 1
    ensures Submap(c.store, old(c.store)) && AllAchieved(cr, Sole(cr, old(c.store)), |CleanupStages|, c.Now())
  {
    var finished := false;
    passes := 0;
    ghost var total := |OperatorCsvs(c.store, cr.ns)|;
    while !finished
      invariant old(c.log) <= c.log && Spared(cr, old(c.store), |old(c.log)|, c.log, c.store)
      invariant c.Reliable() && c.Quiet() && c.workloads <= old(c.workloads)
      invariant Submap(c.store, old(c.store)) && LoggingSound(c.store)
      invariant !finished ==> passes + |OperatorCsvs(c.store, cr.ns)| <= total
      invariant !finished && cr.ns != LoggingNs ==> passes + |OperatorCsvs(c.store, cr.ns)| == total
      invariant finished ==> passes <= total + 1 && (cr.ns != LoggingNs ==> passes == total + 1)
      invariant finished ==> AllAchieved(cr, Sole(cr, old(c.store)), |CleanupStages|, c.Now())
      decreases !finished, |OperatorCsvs(c.store, cr.ns)|
    {
      ghost var before, upTo := c.store, c.log;
      var done, _, _ := RunStages(c, cr);
      finished := done;
      SparedOn(cr, old(c.store), |old(c.log)|, upTo, before, c.log, c.store);
      SoundStays(before, c.store);
      SoleGrows(cr, old(c.store), before);
      if finished { AchievedWeakens(cr, Sole(cr, before), Sole(cr, old(c.store)), c.Now()); }
      passes := passes + 1;
    }
  }
}
