/**
 The reconcile loop around the stages: a live pass, a cleanup pass, the finalizer, and the status. The
 custom resource itself lives at the API server, where users create, edit and delete it at any time.
 */
module Operator {
  import opened Kube
  import opened Observability
  import opened Stack
  import SyncGate
  import ConfigurationSync
  import Migration
  import Install
  import CleanupPass
  import Teardown
  import TokenRefreshers
  import TokenExpiry

  datatype Status = Status(migrated: bool, lastSynced: int, stage: Stage, stageStatus: StageStatus)

  datatype Obs = Obs(cr: Cr, spec: SyncGate.SyncSpec, deleting: bool, finalizers: seq<string>, status: Status)

  const Finalizer := "observability-cleanup"

  /** What a pass depends on beside the cluster; `others` answers for the stages that are not modelled. */
  datatype Setting = Setting(
    world: ConfigurationSync.World,
    clusterId: bool,
    began: int,
    ended: int,
    others: Stage -> StageStatus)

  // ---------- A pass over a live custom resource ----------

  /** What is known of the sync within a pass. */
  datatype Synced = NoSync | Sync(pass: SyncGate.Pass)

  /** How the stages of a pass went: how each that ran ended, the stores before, between and after them, and the sync. */
  datatype Report = Report(results: seq<StageStatus>, stores: seq<Store>, sync: Synced)

  datatype StageRun = StageRun(status: StageStatus, dead: bool)

  /** All that the modelled stages write under this custom resource. */
  function StageMark(cr: Cr): (Key, Obj) -> bool {
    (k: Key, o: Obj) =>
      Install.InstallMark(Install.Footprint(cr), TokenLifetimes(cr))(k, o) || ConfigurationSync.SyncMark(cr)(k, o)
  }

  /** The mark takes in all that the stages write. */
  ghost predicate Allows(mark: (Key, Obj) -> bool, cr: Cr) {
    forall k, o :: StageMark(cr)(k, o) ==> mark(k, o)
  }

  method RunCreating(c: Cluster, cr: Cr, clusterId: bool, stage: Stage, ghost mark: (Key, Obj) -> bool) returns (status: StageStatus)
    requires Allows(mark, cr)
    modifies c
    ensures old(c.log) <= c.log && ConfigurationSync.Guarded(old(c.store), |old(c.log)|, c.log, c.store)
    ensures status.ResultSuccess? ==> Install.StagePresent(cr, stage, c.store)
    ensures c.Reliable() && c.Obliging() && clusterId && Install.Current(cr, old(c.store)) ==> status.ResultSuccess?
    ensures Adds(old(c.store), c.store, mark)
  {
    ghost var start, before := c.store, c.log;
    status := Install.InstallStage(c, cr, clusterId, stage, start, |before|);
    InstallAllowed(mark, cr);
    AddsWiden(start, c.store, Install.InstallMark(Install.Footprint(cr), TokenLifetimes(cr)), mark);
    ConfigurationSync.GuardedAside(start, |before|, before, start, c.log, c.store, ProxyKinds);
  }

  lemma InstallAllowed(mark: (Key, Obj) -> bool, cr: Cr)
    requires Allows(mark, cr)
    ensures forall k, o :: Install.InstallMark(Install.Footprint(cr), TokenLifetimes(cr))(k, o) ==> mark(k, o)
  {
    forall k, o | Install.InstallMark(Install.Footprint(cr), TokenLifetimes(cr))(k, o) ensures mark(k, o) {
      assert StageMark(cr)(k, o);
    }
  }

  lemma SyncAllowed(mark: (Key, Obj) -> bool, cr: Cr)
    requires Allows(mark, cr)
    ensures forall k, o :: ConfigurationSync.SyncMark(cr)(k, o) ==> mark(k, o)
  {
    forall k, o | ConfigurationSync.SyncMark(cr)(k, o) ensures mark(k, o) {
      assert StageMark(cr)(k, o);
    }
  }

  method RunMigration(c: Cluster, cr: Cr, next: Status) returns (status: StageStatus, after: Status)
    modifies c
    ensures old(c.log) <= c.log && ConfigurationSync.Guarded(old(c.store), |old(c.log)|, c.log, c.store)
    ensures after == next.(migrated := next.migrated || status.ResultSuccess?)
    ensures Submap(c.store, old(c.store))
    ensures next.migrated ==> c.store == old(c.store) && status.ResultSuccess?
    ensures status.ResultSuccess? && !next.migrated ==> Migration.AllRemoved(cr, c.store)
    ensures c.Reliable() ==> status.ResultSuccess?
  {
    ghost var start, before := c.store, c.log;
    var latched;
    status, latched := Migration.Reconcile(c, cr, next.migrated);
    after := next.(migrated := latched);
    ConfigurationSync.GuardedAside(start, |before|, before, start, c.log, c.store, ProxyKinds);
  }

  function ResultOf(kind: SyncGate.PassKind): StageStatus {
    match kind
    case NotRun => ResultSuccess
    case Synced => ResultSuccess
    case Waiting => ResultInProgress
    case _ => ResultFailed
  }

  /** The stage succeeds exactly if no sync was called for or one has completed; without configuration it is in progress. */
  predicate StatusFits(kind: SyncGate.PassKind, status: StageStatus) {
    && (status.ResultSuccess? <==> kind.NotRun? || kind.Synced?)
    && (status.ResultInProgress? <==> kind.Waiting?)
    && (status.ResultFailed? <==> kind.Failing? || kind.Dead?)
  }

  /** What is claimed of a sync: of which resource, in which setting, and between which stores. */
  type Truth = (Obs, Setting, Store, Store, SyncGate.Pass) -> bool

  /** That it tells what happened. */
  ghost function TruthOf(c: Cluster): Truth {
    (o: Obs, e: Setting, a: Store, b: Store, pass: SyncGate.Pass) =>
      ConfigurationSync.Truthful(o.cr, o.spec, e.world, true, c.Reliable(), a, b, pass)
  }

  /** The Configuration stage went from store `a` to store `b` as this sync says, with Migrated set. */
  ghost predicate SyncTold(truth: Truth, o: Obs, e: Setting, status: StageStatus, a: Store, b: Store, pass: SyncGate.Pass) {
    && pass.began == e.began && pass.ended == e.ended && pass.before == o.status.lastSynced
    && (forall period :: o.spec.period in {None, Some(period)} ==> SyncGate.Sound(pass, period))
    && StatusFits(pass.kind, status)
    && truth(o, e, a, b, pass)
  }

  /** What a stage that went from store `a` to store `b` says of itself is what happened. */
  ghost predicate StageTold(c: Cluster, o: Obs, e: Setting, mark: (Key, Obj) -> bool, stage: Stage, status: StageStatus, a: Store, b: Store) {
    && Adds(a, b, mark)
    && match stage
       case MigrationStage =>
         && Submap(b, a) && (o.status.migrated ==> b == a)
         && (!o.status.migrated && status.ResultSuccess? ==> Migration.AllRemoved(o.cr, b))
         && (o.status.migrated || c.Reliable() ==> status.ResultSuccess?)
       case LoggingInstallationStage => b == a && status == e.others(stage)
       case CsvStage => b == a && status == e.others(stage)
       case ConfigurationStage => true
       case _ =>
         && (status.ResultSuccess? ==> Install.StagePresent(o.cr, stage, b))
         && (c.Reliable() && c.Obliging() && e.clusterId && Install.Current(o.cr, a) ==> status.ResultSuccess?)
  }

  method RunConfiguration(c: Cluster, o: Obs, next: Status, e: Setting, ghost mark: (Key, Obj) -> bool) returns (run: StageRun, after: Status, ghost sync: Synced)
    requires Allows(mark, o.cr) && next.migrated
    requires next.lastSynced == o.status.lastSynced && TokenExpiry.Second <= e.began <= e.ended
    modifies c
    ensures old(c.log) <= c.log && ConfigurationSync.Guarded(old(c.store), |old(c.log)|, c.log, c.store)
    ensures sync.Sync? && SyncTold(TruthOf(c), o, e, run.status, old(c.store), c.store, sync.pass)
    ensures after == next.(lastSynced := sync.pass.after) && run.dead == sync.pass.kind.Dead?
    ensures Adds(old(c.store), c.store, mark)
  {
    var kind, forced, lastSynced :=
      ConfigurationSync.Reconcile(c, o.cr, o.spec, e.world, next.migrated, o.status.lastSynced, e.began, e.ended);
    SyncAllowed(mark, o.cr);
    AddsWiden(old(c.store), c.store, ConfigurationSync.SyncMark(o.cr), mark);
    run, after := StageRun(ResultOf(kind), kind.Dead?), next.(lastSynced := lastSynced);
    sync := Sync(SyncGate.Pass(e.began, e.ended, forced, kind, o.status.lastSynced, lastSynced));
    TruthTold(TruthOf(c), o, e, old(c.store), c.store, sync.pass);
  }

  lemma TruthTold(truth: Truth, o: Obs, e: Setting, a: Store, b: Store, pass: SyncGate.Pass)
    requires pass.began == e.began && pass.ended == e.ended && pass.before == o.status.lastSynced
    requires forall period :: o.spec.period in {None, Some(period)} ==> SyncGate.Sound(pass, period)
    requires truth(o, e, a, b, pass)
    ensures SyncTold(truth, o, e, ResultOf(pass.kind), a, b, pass)
  {
    assert StatusFits(pass.kind, ResultOf(pass.kind));
  }

  /** Every stage but Configuration. */
  method RunPlainStage(c: Cluster, o: Obs, stage: Stage, next: Status, e: Setting, ghost mark: (Key, Obj) -> bool)
    returns (status: StageStatus, after: Status)
    requires Allows(mark, o.cr) && stage != ConfigurationStage && (stage == MigrationStage ==> next.migrated == o.status.migrated)
    modifies c
    ensures old(c.log) <= c.log && ConfigurationSync.Guarded(old(c.store), |old(c.log)|, c.log, c.store)
    ensures StageTold(c, o, e, mark, stage, status, old(c.store), c.store)
    ensures after == Advanced(next, stage, status, NoSync)
  {
    after := next;
    if stage == MigrationStage {
      status, after := RunMigration(c, o.cr, next);
    } else if stage in {LoggingInstallationStage, CsvStage} {
      status := e.others(stage);
    } else {
      status := RunCreating(c, o.cr, e.clusterId, stage, mark);
    }
  }

  predicate Deadly(sync: Synced) { sync.Sync? && sync.pass.kind.Dead? }

  /** What a stage changes of the status, its own result aside. */
  function Advanced(s: Status, stage: Stage, status: StageStatus, sync: Synced): Status {
    s.(migrated := s.migrated || (stage == MigrationStage && status.ResultSuccess?),
       lastSynced := if sync.Sync? then sync.pass.after else s.lastSynced)
  }

  /** The status after a pass. */
  function NextStatus(o: Obs, r: Report): Status
    requires 0 < |r.results| <= |InstallationStages|
  {
    var n := |r.results|;
    Status(o.status.migrated || (n > 9 && r.results[9].ResultSuccess?),
           if r.sync.Sync? then r.sync.pass.after else o.status.lastSynced,
           InstallationStages[n - 1],
           r.results[n - 1])
  }

  /** The first stages of the list, from the store `start` to the store `now`. */
  ghost predicate StagesTold(c: Cluster, o: Obs, e: Setting, mark: (Key, Obj) -> bool, results: seq<StageStatus>, stores: seq<Store>, start: Store, now: Store) {
    && |results| <= |InstallationStages| && |stores| == |results| + 1 && stores[0] == start && stores[|results|] == now
    && (forall i :: 0 <= i < |results| ==> StageTold(c, o, e, mark, InstallationStages[i], results[i], stores[i], stores[i + 1]))
  }

  /**
   The report of a pass from the store `start` to the store `now`: the stages in the order of the list, of which
   only the last may be other than a success, and the sync exactly if the last stage was reached.
   */
  ghost predicate Reports(c: Cluster, truth: Truth, o: Obs, e: Setting, mark: (Key, Obj) -> bool, r: Report, start: Store, now: Store) {
    var n := |r.results|;
    && 0 < n && StagesTold(c, o, e, mark, r.results, r.stores, start, now)
    && AllSucceeded(r.results[..n - 1])
    && (r.sync.Sync? <==> n == |InstallationStages|)
    && (r.sync.Sync? ==> SyncTold(truth, o, e, r.results[10], r.stores[10], r.stores[11], r.sync.pass))
  }

  ghost predicate AllSucceeded(results: seq<StageStatus>) {
    forall i :: 0 <= i < |results| ==> results[i].ResultSuccess?
  }

  lemma StagesToldOn(c: Cluster, o: Obs, e: Setting, mark: (Key, Obj) -> bool, results: seq<StageStatus>, stores: seq<Store>,
                     start: Store, mid: Store, status: StageStatus, now: Store)
    requires StagesTold(c, o, e, mark, results, stores, start, mid) && |results| < |InstallationStages|
    requires StageTold(c, o, e, mark, InstallationStages[|results|], status, mid, now)
    ensures StagesTold(c, o, e, mark, results + [status], stores + [now], start, now)
  {
    var rs, ss := results + [status], stores + [now];
    forall i | 0 <= i < |rs| ensures StageTold(c, o, e, mark, InstallationStages[i], rs[i], ss[i], ss[i + 1]) {
      if i < |results| { assert StageTold(c, o, e, mark, InstallationStages[i], results[i], stores[i], stores[i + 1]); }
    }
  }

  /**
   Configuration is reached only with Migrated set; and Migrated is only set by a migration that has removed
   everything, to which the stages after it have added nothing but their own.
   */
  ghost predicate Migrates(o: Obs, mark: (Key, Obj) -> bool, r: Report, now: Store, next: Status) {
    && (r.sync.Sync? <==> next.stage == ConfigurationStage)
    && (next.stage == ConfigurationStage ==> next.migrated)
    && (next.migrated && !o.status.migrated ==> |r.stores| > 10 && Migration.AllRemoved(o.cr, r.stores[10]) && Adds(r.stores[10], now, mark))
  }

  lemma MigratedFirst(c: Cluster, truth: Truth, o: Obs, e: Setting, mark: (Key, Obj) -> bool, r: Report, start: Store, now: Store)
    requires Reports(c, truth, o, e, mark, r, start, now)
    ensures Migrates(o, mark, r, now, NextStatus(o, r))
  {
    var n := |r.results|;
    if n > 9 { assert StageTold(c, o, e, mark, InstallationStages[9], r.results[9], r.stores[9], r.stores[10]); }
    if n > 10 {
      assert r.results[..n - 1][9].ResultSuccess?;
      assert StageTold(c, o, e, mark, InstallationStages[10], r.results[10], r.stores[10], r.stores[11]);
    }
    OnlyLastConfigures(n - 1);
  }

  lemma OnlyLastConfigures(i: nat)
    requires i < |InstallationStages|
    ensures InstallationStages[i] == ConfigurationStage <==> i == 10
    ensures InstallationStages[i] == MigrationStage <==> i == 9
  {
  }

  method RunNthStage(c: Cluster, o: Obs, i: nat, next: Status, e: Setting, ghost mark: (Key, Obj) -> bool)
    returns (run: StageRun, after: Status, ghost sync: Synced)
    requires Allows(mark, o.cr)
    requires i < |InstallationStages| && next.lastSynced == o.status.lastSynced && TokenExpiry.Second <= e.began <= e.ended
    requires if i <= 9 then next.migrated == o.status.migrated else next.migrated
    modifies c
    ensures old(c.log) <= c.log && ConfigurationSync.Guarded(old(c.store), |old(c.log)|, c.log, c.store)
    ensures StageTold(c, o, e, mark, InstallationStages[i], run.status, old(c.store), c.store)
    ensures if i == 10 then sync.Sync? && SyncTold(TruthOf(c), o, e, run.status, old(c.store), c.store, sync.pass) else sync.NoSync?
    ensures after == Advanced(next, InstallationStages[i], run.status, sync).(stage := InstallationStages[i], stageStatus := run.status)
    ensures run.dead == Deadly(sync)
  {
    var stage := InstallationStages[i];
    OnlyLastConfigures(i);
    if stage == ConfigurationStage {
      run, after, sync := RunConfiguration(c, o, next, e, mark);
    } else {
      var status;
      status, after := RunPlainStage(c, o, stage, next, e, mark);
      run, sync := StageRun(status, false), NoSync;
    }
    after := after.(stage := stage, stageStatus := run.status);
  }

  /** The stage loop, stage by stage as the report says. */
  method RunInstallStages(c: Cluster, o: Obs, e: Setting, ghost mark: (Key, Obj) -> bool)
    returns (finished: bool, dead: bool, next: Status, ghost report: Report)
    requires Allows(mark, o.cr) && TokenExpiry.Second <= e.began <= e.ended
    modifies c
    ensures old(c.log) <= c.log && ConfigurationSync.Guarded(old(c.store), |old(c.log)|, c.log, c.store)
    ensures Told(c, TruthOf(c), o, e, mark, report, old(c.store), c.store, next) && dead == Deadly(report.sync)
    ensures finished <==> next.stage == ConfigurationStage && next.stageStatus == ResultSuccess
    ensures Migrates(o, mark, report, c.store, next)
    ensures finished ==> report.sync.Sync? && (report.sync.pass.kind.NotRun? || report.sync.pass.kind.Synced?)
    ensures report.sync.Sync? && (report.sync.pass.kind.Failing? || dead) ==> !finished && next.stageStatus.ResultFailed?
    ensures report.sync.Sync? && report.sync.pass.kind.Waiting? ==> !finished && next.stageStatus.ResultInProgress?
    ensures Adds(old(c.store), c.store, mark)
  {
    ghost var start := c.store;
    finished, dead, next, report := LoopStages(c, o, e, mark);
    if finished { AlongEnds(c, TruthOf(c), o, e, mark, report, start, c.store, next); }
    MigratedFirst(c, TruthOf(c), o, e, mark, report, start, c.store);
  }

  method LoopStages(c: Cluster, o: Obs, e: Setting, ghost mark: (Key, Obj) -> bool)
    returns (finished: bool, dead: bool, next: Status, ghost report: Report)
    requires Allows(mark, o.cr) && TokenExpiry.Second <= e.began <= e.ended
    modifies c
    ensures old(c.log) <= c.log && ConfigurationSync.Guarded(old(c.store), |old(c.log)|, c.log, c.store)
    ensures finished ==> Along(c, TruthOf(c), o, e, mark, report, old(c.store), c.store, next, |InstallationStages|)
    ensures dead == Deadly(report.sync) && (!finished ==> Ended(c, TruthOf(c), o, e, mark, report, old(c.store), c.store, next, finished, dead))
  {
    ghost var start, n := c.store, |c.log|;
    finished, dead, next, report := true, false, o.status, Report([], [c.store], NoSync);
    for i := 0 to |InstallationStages|
      invariant old(c.log) <= c.log && ConfigurationSync.Guarded(start, n, c.log, c.store)
      invariant finished && dead == Deadly(report.sync) && Along(c, TruthOf(c), o, e, mark, report, start, c.store, next, i)
    {
      finished, dead, next, report := ReportNext(c, o, i, next, e, mark, start, n, report);
      if !finished { break; }
    }
  }

  lemma AlongEnds(c: Cluster, truth: Truth, o: Obs, e: Setting, mark: (Key, Obj) -> bool, r: Report, start: Store, now: Store, next: Status)
    requires Along(c, truth, o, e, mark, r, start, now, next, |InstallationStages|)
    ensures Ended(c, truth, o, e, mark, r, start, now, next, true, Deadly(r.sync)) && |r.results| == |InstallationStages|
  {
  }

  /** Where a sync was called for, a finished pass has delivered it: in the store it leaves, what its secrets ask for. */
  lemma FinishedIsDelivered(c: Cluster, o: Obs, e: Setting, mark: (Key, Obj) -> bool, r: Report, start: Store, now: Store)
    requires Reports(c, TruthOf(c), o, e, mark, r, start, now)
    ensures |r.results| == |InstallationStages| && r.results[10].ResultSuccess? ==>
      r.sync.Sync? && (r.sync.pass.kind.NotRun? || (r.sync.pass.kind.Synced? && o.spec.selector.Some?
        && ConfigurationSync.Delivered(o.cr, o.spec.selector.value, e.world, c.Reliable(), r.stores[10], now)))
    ensures r.sync.Sync? && r.sync.pass.kind.NotRun? ==> now == r.stores[10]
  {
    if r.sync.Sync? { assert SyncTold(TruthOf(c), o, e, r.results[10], r.stores[10], r.stores[11], r.sync.pass); }
  }

  /** The first `i` stages have succeeded, as the report says. */
  ghost predicate Along(c: Cluster, truth: Truth, o: Obs, e: Setting, mark: (Key, Obj) -> bool, r: Report, start: Store, now: Store, next: Status, i: nat) {
    && |r.results| == i <= |InstallationStages| && AllSucceeded(r.results) && Adds(start, now, mark)
    && if i == 0 then next == o.status && r == Report([], [start], NoSync) && now == start else Told(c, truth, o, e, mark, r, start, now, next)
  }

  /** A report and the status it comes to. */
  ghost predicate Told(c: Cluster, truth: Truth, o: Obs, e: Setting, mark: (Key, Obj) -> bool, r: Report, start: Store, now: Store, next: Status) {
    Reports(c, truth, o, e, mark, r, start, now) && next == NextStatus(o, r)
  }

  /** The same at the end of a stage: did it succeed, and did the process survive it? */
  ghost predicate Ended(c: Cluster, truth: Truth, o: Obs, e: Setting, mark: (Key, Obj) -> bool, r: Report, start: Store, now: Store,
                        next: Status, finished: bool, dead: bool)
  {
    && Told(c, truth, o, e, mark, r, start, now, next) && Adds(start, now, mark)
    && dead == Deadly(r.sync) && (finished <==> next.stageStatus.ResultSuccess?)
  }

  /** Before stage `i` Migrated and LastSynced are those of the resource, except that a migration has set the one. */
  lemma BeforeStage(c: Cluster, truth: Truth, o: Obs, e: Setting, mark: (Key, Obj) -> bool, r: Report, start: Store, now: Store, next: Status, i: nat)
    requires Along(c, truth, o, e, mark, r, start, now, next, i) && i < |InstallationStages|
    ensures next.lastSynced == o.status.lastSynced && r.sync.NoSync?
    ensures if i <= 9 then next.migrated == o.status.migrated else next.migrated
  {
    if i > 9 { assert r.results[9].ResultSuccess?; }
  }

  lemma AlongOn(c: Cluster, truth: Truth, o: Obs, e: Setting, mark: (Key, Obj) -> bool, r: Report, start: Store, mid: Store, next: Status, i: nat,
                status: StageStatus, sync: Synced, now: Store)
    requires Along(c, truth, o, e, mark, r, start, mid, next, i) && i < |InstallationStages|
    requires StageTold(c, o, e, mark, InstallationStages[i], status, mid, now)
    requires if i == 10 then sync.Sync? && SyncTold(truth, o, e, status, mid, now, sync.pass) else sync.NoSync?
    ensures
      var more := Report(r.results + [status], r.stores + [now], sync);
      var after := Advanced(next, InstallationStages[i], status, sync).(stage := InstallationStages[i], stageStatus := status);
      && Ended(c, truth, o, e, mark, more, start, now, after, status.ResultSuccess?, Deadly(sync))
      && (status.ResultSuccess? ==> Along(c, truth, o, e, mark, more, start, now, after, i + 1))
  {
    var more := Report(r.results + [status], r.stores + [now], sync);
    StagesToldOn(c, o, e, mark, r.results, r.stores, start, mid, status, now);
    AddsOn(start, mid, now, mark);
    BeforeStage(c, truth, o, e, mark, r, start, mid, next, i);
    assert more.results[..i] == r.results;
    NextStatusOn(o, r, i, next, status, sync, now);
  }

  lemma NextStatusOn(o: Obs, r: Report, i: nat, next: Status, status: StageStatus, sync: Synced, now: Store)
    requires |r.results| == i < |InstallationStages| && next.lastSynced == o.status.lastSynced
    requires if i <= 9 then next.migrated == o.status.migrated else next.migrated && r.results[9].ResultSuccess?
    ensures NextStatus(o, Report(r.results + [status], r.stores + [now], sync))
      == Advanced(next, InstallationStages[i], status, sync).(stage := InstallationStages[i], stageStatus := status)
  {
    OnlyLastConfigures(i);
  }

  /** One more stage, and what it adds to the report. */
  method ReportNext(c: Cluster, o: Obs, i: nat, next: Status, e: Setting, ghost mark: (Key, Obj) -> bool, ghost start: Store, ghost n: nat, ghost was: Report)
    returns (finished: bool, dead: bool, after: Status, ghost report: Report)
    requires Allows(mark, o.cr) && TokenExpiry.Second <= e.began <= e.ended
    requires i < |InstallationStages| && Along(c, TruthOf(c), o, e, mark, was, start, c.store, next, i) && ConfigurationSync.Guarded(start, n, c.log, c.store)
    modifies c
    ensures old(c.log) <= c.log && ConfigurationSync.Guarded(start, n, c.log, c.store)
    ensures dead == Deadly(report.sync) && (!finished ==> Ended(c, TruthOf(c), o, e, mark, report, start, c.store, after, finished, dead))
    ensures finished ==> Along(c, TruthOf(c), o, e, mark, report, start, c.store, after, i + 1)
  {
    ghost var before, s := c.log, c.store;
    finished, dead, after, report := ReportStage(c, o, i, next, e, mark, start, was);
    ConfigurationSync.GuardedOn(start, n, before, s, c.log, c.store);
  }

  method ReportStage(c: Cluster, o: Obs, i: nat, next: Status, e: Setting, ghost mark: (Key, Obj) -> bool, ghost start: Store, ghost was: Report)
    returns (finished: bool, dead: bool, after: Status, ghost report: Report)
    requires Allows(mark, o.cr) && TokenExpiry.Second <= e.began <= e.ended
    requires i < |InstallationStages| && Along(c, TruthOf(c), o, e, mark, was, start, c.store, next, i)
    modifies c
    ensures old(c.log) <= c.log && ConfigurationSync.Guarded(old(c.store), |old(c.log)|, c.log, c.store)
    ensures Ended(c, TruthOf(c), o, e, mark, report, start, c.store, after, finished, dead) && dead == Deadly(report.sync)
    ensures finished ==> Along(c, TruthOf(c), o, e, mark, report, start, c.store, after, i + 1)
  {
    ghost var s := c.store;
    var run;
    ghost var sync;
    BeforeStage(c, TruthOf(c), o, e, mark, was, start, s, next, i);
    run, after, sync := RunNthStage(c, o, i, next, e, mark);
    report := Report(was.results + [run.status], was.stores + [c.store], sync);
    AlongOn(c, TruthOf(c), o, e, mark, was, start, s, next, i, run.status, sync, c.store);
    dead, finished := run.dead, run.status == ResultSuccess;
  }

  // ---------- The custom resource at the API server ----------

  /**
   The stored resource, its version, and what its history amounts to: whether install stages have run for
   it, whether a resource they had run for ever went without a finished cleanup, whether Migrated was
   persisted, and how often the resource was created.
   */
  datatype Record = Record(obs: Option<Obs>, version: nat, touched: bool, lost: bool, latched: bool, incarnation: nat)

  datatype Action = Create(cr: Cr, spec: SyncGate.SyncSpec, finalizers: seq<string>) | Edit(cr: Cr, spec: SyncGate.SyncSpec) | Delete

  function Vanish(r: Record, cleaned: bool): Record {
    Record(None, r.version + 1, false, r.lost || (r.touched && !cleaned), false, r.incarnation)
  }

  /** A write; a resource under deletion goes with its last finalizer. */
  function Write(r: Record, o: Obs, cleaned: bool): Record {
    if o.deleting && o.finalizers == [] then Vanish(r, cleaned)
    else Record(Some(o), r.version + 1, r.touched, r.lost, r.latched || o.status.migrated, r.incarnation)
  }

  const InitialStatus := Status(false, 0, TokenRequestStage, ResultSuccess)

  /** What users do; finalizers of an existing resource are not theirs to edit. */
  function Act(r: Record, a: Action): Record {
    match a
    case Create(cr, spec, finalizers) =>
      if r.obs.Some? then r
      else Record(Some(Obs(cr, spec, false, finalizers, InitialStatus)), r.version + 1, false, r.lost, false, r.incarnation + 1)
    case Edit(cr, spec) =>
      if r.obs.None? then r else Write(r, r.obs.value.(cr := cr, spec := spec), false)
    case Delete =>
      if r.obs.None? then r else Write(r, r.obs.value.(deleting := true), false)
  }

  /** Any number of things that users do. */
  function Acts(r: Record, actions: seq<Action>): Record
    decreases actions
  {
    if actions == [] then r else Acts(Act(r, actions[0]), actions[1..])
  }

  /** Nothing installed was ever abandoned, nothing installed can be, and Migrated stays. */
  predicate Safe(r: Record) {
    && !r.lost
    && (r.obs.None? ==> !r.touched && !r.latched)
    && (r.obs.Some? ==>
      && (r.touched || r.obs.value.deleting ==> r.obs.value.finalizers != [])
      && (r.latched ==> r.obs.value.status.migrated))
  }

  /** A persisted Migrated is still there. */
  predicate LatchKept(r: Record) {
    r.latched ==> r.obs.Some? && r.obs.value.status.migrated
  }

  /** The version tells whether `o` is still what is stored. */
  predicate Tracks(r: Record, o: Obs, v: nat) {
    v <= r.version && (r.version == v ==> r.obs == Some(o))
  }

  /** For as long as the resource is incarnation `i`, its LastSynced is one of these. */
  predicate Remembers(r: Record, i: nat, times: set<int>) {
    i <= r.incarnation && (r.incarnation == i && r.obs.Some? ==> r.obs.value.status.lastSynced in times)
  }

  /** What users cannot take away from a resource with a finalizer. */
  predicate Stands(before: Record, after: Record) {
    before.obs.Some? && before.obs.value.finalizers != [] ==>
      && after.obs.Some? && after.obs.value.finalizers == before.obs.value.finalizers
      && after.touched == before.touched && after.incarnation == before.incarnation
  }

  lemma ActIsSafe(r: Record, a: Action)
    ensures Safe(r) ==> Safe(Act(r, a)) && Stands(r, Act(r, a))
    ensures LatchKept(r) ==> LatchKept(Act(r, a))
    ensures r.version <= Act(r, a).version && (Act(r, a).version == r.version ==> Act(r, a) == r)
  {
  }

  lemma StandsOn(a: Record, b: Record, d: Record)
    requires Stands(a, b) && Stands(b, d)
    ensures Stands(a, d)
  {
  }

  lemma {:induction false} ActsAreSafe(r: Record, actions: seq<Action>)
    ensures Safe(r) ==> Safe(Acts(r, actions)) && Stands(r, Acts(r, actions))
    ensures LatchKept(r) ==> LatchKept(Acts(r, actions))
    ensures r.version <= Acts(r, actions).version && (Acts(r, actions).version == r.version ==> Acts(r, actions) == r)
    decreases actions
  {
    if actions != [] {
      var next := Act(r, actions[0]);
      ActIsSafe(r, actions[0]);
      ActsAreSafe(next, actions[1..]);
      if Safe(r) { StandsOn(r, next, Acts(next, actions[1..])); }
    }
  }

  lemma ActsTrack(r: Record, actions: seq<Action>, o: Obs, v: nat)
    requires Tracks(r, o, v)
    ensures Tracks(Acts(r, actions), o, v)
  {
    ActsAreSafe(r, actions);
  }

  lemma {:induction false} ActsRemember(r: Record, actions: seq<Action>, i: nat, times: set<int>)
    requires Remembers(r, i, times)
    ensures Remembers(Acts(r, actions), i, times)
    decreases actions
  {
    if actions != [] {
      ActsRemember(Act(r, actions[0]), actions[1..], i, times);
    }
  }

  datatype Fetched = Got(obs: Obs, version: nat) | Gone | FetchFailed

  class Registry {
    var rec: Record
    var calls: nat
    const faults: nat -> Fault
    const users: (nat, Option<Obs>) -> seq<Action>

    constructor (r: Record, f: nat -> Fault, u: (nat, Option<Obs>) -> seq<Action>)
      ensures rec == r && calls == 0 && faults == f && users == u
    {
      rec, calls, faults, users := r, 0, f, u;
    }

    /** No call fails and nobody else acts. */
    ghost predicate Undisturbed() {
      (forall n :: faults(n) == Healthy) && forall n, o :: users(n, o) == []
    }

    /** The users' turn. */
    method Pause()
      modifies this
      ensures rec == Met(this, old(rec), old(calls)) && calls == old(calls) + 1
      ensures exists actions :: rec == Acts(old(rec), actions)
      ensures Undisturbed() ==> rec == old(rec)
    {
      rec := Acts(rec, users(calls, rec.obs));
      calls := calls + 1;
    }

    method Fetch() returns (r: Fetched)
      modifies this
      ensures rec == Met(this, old(rec), old(calls))
      ensures r.FetchFailed? <==> faults(old(calls) + 1) != Healthy
      ensures exists actions :: rec == Acts(old(rec), actions)
      ensures r.Got? ==> rec.obs == Some(r.obs) && rec.version == r.version
      ensures r.Gone? ==> rec.obs == None
      ensures Undisturbed() ==> rec == old(rec) && !r.FetchFailed?
    {
      Pause();
      r := if faults(calls) != Healthy then FetchFailed else if rec.obs.None? then Gone else Got(rec.obs.value, rec.version);
    }

    /** A stage of an install pass runs. */
    method Touch()
      modifies this
      ensures rec == old(rec).(touched := true)
    {
      rec := rec.(touched := true);
    }

    method UpdateStatus(s: Status, version: nat) returns (ok: bool)
      modifies this
      ensures exists actions :: var r := Acts(old(rec), actions); rec == r || (r.obs.Some? && r.version == version && rec == StatusUpdated(r, s))
      ensures Undisturbed() && old(rec).obs.Some? && old(rec).version == version ==> rec == StatusUpdated(old(rec), s)
    {
      Pause();
      ok := false;
      if rec.obs.Some? && rec.version == version && faults(calls) != Rejected {
        rec := StatusUpdated(rec, s);
        ok := faults(calls) == Healthy;
      }
    }

    /** Fails on a version other than the one fetched; may also fail before or after it took effect. */
    method Update(o: Obs, version: nat, cleaned: bool) returns (ok: bool)
      modifies this
      ensures exists actions :: var r := Acts(old(rec), actions); rec == r || (r.obs.Some? && r.version == version && rec == Updated(r, o, cleaned))
      ensures Undisturbed() && old(rec).obs.Some? && old(rec).version == version ==> rec == Updated(old(rec), o, cleaned)
    {
      Pause();
      ok := false;
      if rec.obs.Some? && rec.version == version && faults(calls) != Rejected {
        rec := Updated(rec, o, cleaned);
        ok := faults(calls) == Healthy;
      }
    }
  }

  /** The record as users leave it in their turn number `n`, and the resource that a fetch then gets, if it does. */
  function Met(reg: Registry, r: Record, n: nat): Record {
    Acts(r, reg.users(n, r.obs))
  }

  function Seen(reg: Registry, r: Record, n: nat): Option<Obs> {
    if reg.faults(n + 1) != Healthy then None else Met(reg, r, n).obs
  }

  lemma SafeUpdate(r: Record, o: Obs, cleaned: bool)
    requires Safe(r) && r.obs.Some? && (o.finalizers != [] || (o.deleting && cleaned))
    ensures Safe(Updated(r, o, cleaned))
  {
  }

  /** An Update writes metadata and spec; the status is a subresource and stays. */
  function Updated(r: Record, o: Obs, cleaned: bool): Record
    requires r.obs.Some?
  {
    Write(r, o.(status := r.obs.value.status), cleaned)
  }

  function StatusUpdated(r: Record, s: Status): Record
    requires r.obs.Some?
  {
    Write(r, r.obs.value.(status := s), false)
  }

  // ---------- One pass ----------

  /** What the last write of a pass leaves, if it takes effect: outside noInit mode any finalizer is stripped, cleanup finished or not. */
  function Closed(noInit: bool, r: Record, o: Obs, finished: bool, next: Status): Record
    requires r.obs.Some?
  {
    if o.deleting && finished then Updated(r, o.(finalizers := []), true)
    else if o.finalizers != [] && !noInit then Updated(r, o.(finalizers := []), false)
    else if next != o.status then StatusUpdated(r, next)
    else r
  }

  /** From `was` to `now` users acted, and then the pass's last write took effect or did not. */
  ghost predicate Ends(noInit: bool, was: Record, now: Record, o: Obs, v: nat, finished: bool, next: Status) {
    exists actions ::
      var r := Acts(was, actions);
      now == r || (r.obs.Some? && r.version == v && now == Closed(noInit, r, o, finished, next))
  }

  /** Since the pass fetched `o` at version `v`, with its finalizers: users may have acted, the operator has not written. */
  ghost predicate Held(r: Record, o: Obs, v: nat) {
    Safe(r) && r.obs.Some? && r.obs.value.finalizers == o.finalizers != [] && Tracks(r, o, v)
  }

  lemma StillHeld(r: Record, actions: seq<Action>, o: Obs, v: nat)
    requires Held(r, o, v)
    ensures Held(Acts(r, actions), o, v) && Stands(r, Acts(r, actions))
  {
    ActsAreSafe(r, actions);
  }

  /** A pass that ends in noInit mode, or by finishing a cleanup, abandons nothing. */
  lemma SafeEnd(noInit: bool, was: Record, now: Record, o: Obs, v: nat, finished: bool, next: Status)
    requires Ends(noInit, was, now, o, v, finished, next) && Held(was, o, v) && (o.status.migrated ==> next.migrated)
    requires noInit || (o.deleting && finished)
    ensures Safe(now)
    ensures !(o.deleting && finished) ==> Stands(was, now)
  {
    var actions :| var r := Acts(was, actions); now == r || (r.obs.Some? && r.version == v && now == Closed(noInit, r, o, finished, next));
    StillHeld(was, actions, o, v);
    if o.deleting && finished && now != Acts(was, actions) {
      SafeUpdate(Acts(was, actions), o.(finalizers := []), true);
    }
  }

  lemma LatchedEnd(noInit: bool, was: Record, now: Record, o: Obs, v: nat, finished: bool, next: Status)
    requires Ends(noInit, was, now, o, v, finished, next) && LatchKept(was) && Tracks(was, o, v) && (o.status.migrated ==> next.migrated)
    ensures LatchKept(now)
  {
    var actions :| var r := Acts(was, actions); now == r || (r.obs.Some? && r.version == v && now == Closed(noInit, r, o, finished, next));
    ActsAreSafe(was, actions);
    ActsTrack(was, actions, o, v);
  }

  lemma RememberedEnd(noInit: bool, was: Record, now: Record, o: Obs, v: nat, finished: bool, next: Status, i: nat, times: set<int>)
    requires Ends(noInit, was, now, o, v, finished, next) && Remembers(was, i, times)
    ensures Remembers(now, i, times + {next.lastSynced})
  {
    var actions :| var r := Acts(was, actions); now == r || (r.obs.Some? && r.version == v && now == Closed(noInit, r, o, finished, next));
    ActsRemember(was, actions, i, times);
    if now != Acts(was, actions) { ClosedRemembers(noInit, Acts(was, actions), o, finished, next, i, times); }
  }

  lemma ClosedRemembers(noInit: bool, r: Record, o: Obs, finished: bool, next: Status, i: nat, times: set<int>)
    requires r.obs.Some? && Remembers(r, i, times)
    ensures Remembers(Closed(noInit, r, o, finished, next), i, times + {next.lastSynced})
  {
  }

  /** Outside noInit mode the end of an unfinished cleanup is the end of the resource. */
  lemma StrippedClose(r: Record, o: Obs, finished: bool, next: Status)
    requires r.obs.Some? && o.deleting && o.finalizers != []
    ensures
      var after := Closed(false, r, o, finished, next);
      after.obs.None? && (r.touched && !finished ==> after.lost)
  {
  }

  /** Once stages have run, an end that takes effect is safe exactly when the pass finished a cleanup or the operator is in noInit mode. */
  lemma SafeCloseIff(noInit: bool, r: Record, o: Obs, finished: bool, next: Status)
    requires Safe(r) && r.obs == Some(o) && r.touched && (o.status.migrated ==> next.migrated)
    ensures Safe(Closed(noInit, r, o, finished, next)) <==> (o.deleting && finished) || noInit
  {
  }

  /** A sync that a pass ran: as the gate's runs count it, under which period, and for which incarnation. */
  datatype Ran = Ran(pass: SyncGate.Pass, period: Option<int>, incarnation: nat)

  /** The sync that a pass reports. */
  function RanOf(r: Report, period: Option<int>, incarnation: nat): Option<Ran> {
    if r.sync.Sync? then Some(Ran(r.sync.pass, period, incarnation)) else None
  }

  /** A finished cleanup: under which custom resource, and the cluster before and after. */
  datatype Clearance = Clearance(cr: Cr, before: Store, after: Snapshot)

  ghost predicate IsClear(x: Clearance) {
    && CleanupPass.AllAchieved(x.cr, Teardown.Sole(x.cr, x.before), |CleanupStages|, x.after)
    && Install.Footprint(x.cr) !! x.after.store.Keys
  }

  /** The resource is still the one it was, with its stages run. */
  predicate Lasts(before: Record, after: Record) {
    after.obs.Some? && after.touched && after.incarnation == before.incarnation
  }

  /**
   Migrated stays persisted; and in noInit mode nothing installed is abandoned: a resource whose stages have
   run is still there, unless a cleanup has finished in between.
   */
  predicate Kept(noInit: bool, was: Record, now: Record, cleared: bool) {
    && (LatchKept(was) ==> LatchKept(now))
    && (noInit && Safe(was) ==> Safe(now) && (was.touched ==> cleared || Lasts(was, now)))
  }

  lemma ActsKeep(noInit: bool, r: Record, actions: seq<Action>)
    ensures Kept(noInit, r, Acts(r, actions), false)
  {
    ActsAreSafe(r, actions);
  }

  lemma KeptOn(noInit: bool, a: Record, b: Record, d: Record, before: bool, after: bool)
    requires Kept(noInit, a, b, before) && Kept(noInit, b, d, after)
    ensures Kept(noInit, a, d, before || after)
  {
  }

  predicate Condemned(r: Record) {
    r.obs.Some? && r.obs.value.deleting && r.obs.value.finalizers != []
  }

  /**
   A pass that nothing disturbs, from record to record: over a resource whose stages have run it is safe exactly in
   noInit mode or by finishing its cleanup; outside noInit mode a resource under deletion goes, and is lost unless
   its cleanup has finished. With a finished cleanup the resource goes in any case; in noInit mode a live one gets
   its finalizer first, and then the status that the stages came to.
   */
  predicate Verdict(noInit: bool, was: Record, now: Record, dead: bool, cleared: bool, next: Option<Status>) {
    && (was.obs.Some? && was.obs.value.deleting && cleared ==> now.obs.None?)
    && (noInit && was.obs.Some? && !was.obs.value.deleting && was.obs.value.finalizers == [] ==>
         now.obs == Some(was.obs.value.(finalizers := [Finalizer])))
    && (noInit && was.obs.Some? && !dead && next.Some? ==> now.obs == Some(was.obs.value.(status := next.value)))
    && (Safe(was) && was.touched && !dead ==> (Safe(now) <==> noInit || cleared))
    && (Condemned(was) && !noInit ==> now.obs.None? && (was.touched && !cleared ==> now.lost))
  }

  /** The status that a pass over this resource reports. */
  function Stated(r: Record, y: Yield): Option<Status> {
    if r.obs.Some? && y.told.Some? && 0 < |y.told.value.results| <= |InstallationStages| then Some(NextStatus(r.obs.value, y.told.value)) else None
  }

  /** What a pass did to LastSynced: without a sync nothing; a sync began with it and ends with that or its own. */
  ghost predicate Accounts(r: Record, i: nat, times: set<int>, e: Setting, ran: Option<Ran>) {
    match ran
    case None => Remembers(r, i, times)
    case Some(x) =>
      && x.pass.began == e.began && x.pass.ended == e.ended
      && (forall period :: x.period in {None, Some(period)} ==> SyncGate.Sound(x.pass, period))
      && i <= x.incarnation && (x.incarnation == i ==> x.pass.before in times)
      && Remembers(r, x.incarnation, {x.pass.before, x.pass.after})
  }

  lemma NothingNewRemembered(r: Record, was: Record, i: nat, times: set<int>, last: int)
    requires Remembers(was, i, times) && Remembers(r, was.incarnation, {last})
    requires was.obs.Some? && was.obs.value.status.lastSynced == last
    ensures Remembers(r, i, times)
  {
  }

  // ---------- The passes of a run ----------

  /** Between two passes: the record, the number of the users' next turn, and the cluster. */
  datatype Moment = Moment(rec: Record, turn: nat, now: Snapshot)

  ghost function MomentOf(reg: Registry, c: Cluster): Moment
    reads reg, c
  {
    Moment(reg.rec, reg.calls, c.Now())
  }

  /** What came of a pass: a finished cleanup, a report of the stages, a sync. */
  datatype Yield = Yield(cleaned: Option<Clearance>, told: Option<Report>, ran: Option<Ran>)

  /** Do the stages run for this resource? */
  predicate Runs(noInit: bool, o: Obs) {
    !o.deleting && !(noInit && o.finalizers == [])
  }

  /**
   What a pass between two moments says of itself is what happened. A clearance is of the resource that the
   pass fetched, under deletion, from its first store to its last; a report is of the stages run for the resource
   that it fetched, likewise; and where neither cleanup nor stages ran, the cluster is as it was.
   */
  ghost predicate Yields(noInit: bool, reg: Registry, c: Cluster, truth: Truth, e: Setting, from: Moment, to: Moment, y: Yield) {
    var met, seen := Met(reg, from.rec, from.turn), Seen(reg, from.rec, from.turn);
    && Kept(noInit, from.rec, to.rec, y.cleaned.Some?)
    && (y.cleaned.Some? ==>
         && seen.Some? && seen.value.deleting && IsClear(y.cleaned.value)
         && y.cleaned.value == Clearance(seen.value.cr, from.now.store, to.now))
    && (seen.Some? && seen.value.deleting && Unhindered(c, seen.value.cr, from.now.workloads, from.now.store) ==>
         CleanupPass.Advances(seen.value.cr, from.now.store, to.now.store, y.cleaned.Some?))
    && (y.told.Some? <==> seen.Some? && Runs(noInit, seen.value))
    && (y.told.Some? ==> Reports(c, truth, seen.value, e, StageMark(seen.value.cr), y.told.value, from.now.store, to.now.store))
    && y.ran == (if y.told.Some? && seen.Some? then RanOf(y.told.value, seen.value.spec.period, met.incarnation) else None)
    && (y.told.None? && !(seen.Some? && seen.value.deleting) ==> to.now == from.now)
  }

  /** A pass that began at `from` has fetched `o` at version `v`, and nothing has happened since. */
  ghost predicate Fetches(noInit: bool, reg: Registry, c: Cluster, o: Obs, v: nat, i: nat, times: set<int>, from: Moment)
    reads reg, c
  {
    && reg.rec.obs == Some(o) && reg.rec.version == v && from.now == c.Now() && Remembers(reg.rec, i, times)
    && Seen(reg, from.rec, from.turn) == Some(o) && reg.rec == Met(reg, from.rec, from.turn) && Kept(noInit, from.rec, reg.rec, false)
  }

  lemma AfterFetch(noInit: bool, reg: Registry, r: Record, turn: nat, i: nat, times: set<int>)
    requires Remembers(r, i, times)
    ensures Kept(noInit, r, Met(reg, r, turn), false) && Remembers(Met(reg, r, turn), i, times)
  {
    ActsKeep(noInit, r, reg.users(turn, r.obs));
    ActsRemember(r, reg.users(turn, r.obs), i, times);
  }

  lemma YieldsNothing(noInit: bool, reg: Registry, c: Cluster, truth: Truth, e: Setting, from: Moment, to: Moment)
    requires
      var seen := Seen(reg, from.rec, from.turn);
      seen.None? || (!seen.value.deleting && !Runs(noInit, seen.value))
    requires Kept(noInit, from.rec, to.rec, false) && to.now == from.now
    ensures Yields(noInit, reg, c, truth, e, from, to, Yield(None, None, None))
  {
  }

  function Cleared(o: Obs, finished: bool, from: Moment, to: Moment): Yield {
    Yield(if finished then Some(Clearance(o.cr, from.now.store, to.now)) else None, None, None)
  }

  lemma YieldsCleanup(noInit: bool, reg: Registry, c: Cluster, truth: Truth, e: Setting, from: Moment, to: Moment, o: Obs, finished: bool)
    requires Seen(reg, from.rec, from.turn) == Some(o) && o.deleting && Kept(noInit, from.rec, to.rec, finished)
    requires finished ==> IsClear(Clearance(o.cr, from.now.store, to.now))
    requires Unhindered(c, o.cr, from.now.workloads, from.now.store) ==> CleanupPass.Advances(o.cr, from.now.store, to.now.store, finished)
    ensures Yields(noInit, reg, c, truth, e, from, to, Cleared(o, finished, from, to))
  {
  }

  function Reported(reg: Registry, o: Obs, report: Report, from: Moment): Yield {
    Yield(None, Some(report), RanOf(report, o.spec.period, Met(reg, from.rec, from.turn).incarnation))
  }

  lemma YieldsReport(noInit: bool, reg: Registry, c: Cluster, truth: Truth, e: Setting, from: Moment, to: Moment, o: Obs, report: Report)
    requires Seen(reg, from.rec, from.turn) == Some(o) && Runs(noInit, o) && Kept(noInit, from.rec, to.rec, false)
    requires Reports(c, truth, o, e, StageMark(o.cr), report, from.now.store, to.now.store)
    ensures Yields(noInit, reg, c, truth, e, from, to, Reported(reg, o, report, from))
  {
  }

  ghost predicate AnyCleared(ys: seq<Yield>) {
    exists k :: 0 <= k < |ys| && ys[k].cleaned.Some?
  }

  /** One pass after the other, from the first moment to the last. */
  ghost predicate History(noInit: bool, reg: Registry, c: Cluster, truth: Truth, settings: seq<Setting>, moments: seq<Moment>, ys: seq<Yield>) {
    && |ys| <= |settings| && |moments| == |ys| + 1
    && (forall k :: 0 <= k < |ys| ==> Yields(noInit, reg, c, truth, settings[k], moments[k], moments[k + 1], ys[k]))
  }

  lemma HistoryOn(noInit: bool, reg: Registry, c: Cluster, truth: Truth, settings: seq<Setting>, moments: seq<Moment>, ys: seq<Yield>, to: Moment, y: Yield)
    requires History(noInit, reg, c, truth, settings, moments, ys) && |ys| < |settings|
    requires Yields(noInit, reg, c, truth, settings[|ys|], moments[|ys|], to, y)
    ensures History(noInit, reg, c, truth, settings, moments + [to], ys + [y])
  {
    var ms, more := moments + [to], ys + [y];
    forall k | 0 <= k < |more| ensures Yields(noInit, reg, c, truth, settings[k], ms[k], ms[k + 1], more[k]) {
      if k < |ys| { assert Yields(noInit, reg, c, truth, settings[k], moments[k], moments[k + 1], ys[k]); }
    }
  }

  lemma ClearedOn(ys: seq<Yield>, y: Yield)
    ensures AnyCleared(ys + [y]) <==> AnyCleared(ys) || y.cleaned.Some?
  {
    var more := ys + [y];
    assert more[|ys|] == y;
    forall k | 0 <= k < |ys| ensures more[k] == ys[k] {}
  }

  class Controller {
    const noInit: bool
    var installComplete: bool

    constructor (noInit: bool)
      ensures this.noInit == noInit && !installComplete
    {
      this.noInit, installComplete := noInit, false;
    }

    /** A resource under deletion: the stages, and the finalizer once all ten have succeeded. */
    method Cleanup(reg: Registry, c: Cluster, o: Obs, v: nat) returns (finished: bool, next: Status)
      requires o.deleting
      modifies this`installComplete, reg, c
      ensures old(c.log) <= c.log && ConfigurationSync.Guarded(old(c.store), |old(c.log)|, c.log, c.store)
      ensures finished ==> IsClear(Clearance(o.cr, old(c.store), c.Now()))
      ensures next.migrated == o.status.migrated && next.lastSynced == o.status.lastSynced
      ensures installComplete == (old(installComplete) && !finished)
      ensures Ends(noInit, old(reg.rec), reg.rec, o, v, finished, next)
      ensures reg.Undisturbed() && old(reg.rec).obs.Some? && old(reg.rec).version == v ==>
        reg.rec == Closed(noInit, old(reg.rec), o, finished, next)
      ensures Unhindered(c, o.cr, old(c.workloads), old(c.store)) ==> CleanupPass.Advances(o.cr, old(c.store), c.store, finished)
    {
      var stage, status;
      finished, stage, status := CleanupPass.RunStages(c, o.cr);
      next := o.status.(stage := stage, stageStatus := status);
      if finished {
        Install.FootprintGone(o.cr, Teardown.Sole(o.cr, old(c.store)), c.Now());
        Release(reg, o, v, next);
        installComplete := false;
      } else {
        Close(reg, o, v, next);
      }
    }

    /** Takes the finalizer after a finished cleanup. */
    method Release(reg: Registry, o: Obs, v: nat, ghost next: Status)
      requires o.deleting
      modifies reg
      ensures Ends(noInit, old(reg.rec), reg.rec, o, v, true, next)
      ensures reg.Undisturbed() && old(reg.rec).obs.Some? && old(reg.rec).version == v ==>
        reg.rec == Closed(noInit, old(reg.rec), o, true, next)
    {
      var _ := reg.Update(o.(finalizers := []), v, true);
    }

    /** How a pass that did not end a cleanup ends. */
    method Close(reg: Registry, o: Obs, v: nat, next: Status)
      modifies reg
      ensures Ends(noInit, old(reg.rec), reg.rec, o, v, false, next)
      ensures reg.Undisturbed() && old(reg.rec).obs.Some? && old(reg.rec).version == v ==>
        reg.rec == Closed(noInit, old(reg.rec), o, false, next)
    {
      if o.finalizers != [] && !noInit {
        var _ := reg.Update(o.(finalizers := []), v, false);
      } else if next != o.status {
        var _ := reg.UpdateStatus(next, v);
      } else {
        assert reg.rec == Acts(reg.rec, []);
      }
    }

    /** Users act, and the stages begin. */
    method Enter(reg: Registry)
      modifies reg
      ensures exists actions :: reg.rec == Acts(old(reg.rec), actions).(touched := true)
      ensures reg.Undisturbed() ==> reg.rec == old(reg.rec).(touched := true)
    {
      reg.Pause();
      reg.Touch();
    }

    /** A live resource: users act, the stages run, and the resource counts as touched from here on. */
    method PassOver(reg: Registry, c: Cluster, o: Obs, v: nat, e: Setting)
      returns (dead: bool, next: Status, ghost report: Report)
      requires TokenExpiry.Second <= e.began <= e.ended
      modifies this`installComplete, reg, c
      ensures old(c.log) <= c.log && ConfigurationSync.Guarded(old(c.store), |old(c.log)|, c.log, c.store)
      ensures Told(c, TruthOf(c), o, e, StageMark(o.cr), report, old(c.store), c.store, next) && dead == Deadly(report.sync)
      ensures Migrates(o, StageMark(o.cr), report, c.store, next)
      ensures installComplete == (old(installComplete) || (next.stage == ConfigurationStage && next.stageStatus.ResultSuccess?))
      ensures report.sync.Sync? ==> StatusFits(report.sync.pass.kind, next.stageStatus)
      ensures exists actions :: reg.rec == Acts(old(reg.rec), actions).(touched := true)
      ensures reg.Undisturbed() ==> reg.rec == old(reg.rec).(touched := true)
    {
      Enter(reg);
      var finished;
      finished, dead, next, report := RunInstallStages(c, o, e, StageMark(o.cr));
      if finished && !installComplete { installComplete := true; }
    }

    method AddFinalizer(reg: Registry, o: Obs, v: nat, ghost i: nat, ghost times: set<int>)
      requires reg.rec.obs == Some(o) && reg.rec.version == v && Remembers(reg.rec, i, times)
      modifies reg
      ensures o.finalizers == [] ==> Kept(true, old(reg.rec), reg.rec, false)
      ensures reg.Undisturbed() ==> reg.rec.obs == Some(o.(finalizers := [Finalizer]))
      ensures Remembers(reg.rec, i, times)
    {
      ghost var r := reg.rec;
      var f := o.(finalizers := [Finalizer]);
      var _ := reg.Update(f, v, false);
      ghost var actions :| var q := Acts(r, actions); reg.rec == q || (q.obs.Some? && q.version == v && reg.rec == Updated(q, f, false));
      ActsAreSafe(r, actions);
      ActsRemember(r, actions, i, times);
      if Safe(r) && Acts(r, actions).obs.Some? { SafeUpdate(Acts(r, actions), f, false); }
    }

    /** The branch for a resource under deletion, as fetched. */
    method DeletePass(reg: Registry, c: Cluster, o: Obs, v: nat, ghost i: nat, ghost times: set<int>) returns (finished: bool)
      requires o.deleting && reg.rec.obs == Some(o) && reg.rec.version == v && Remembers(reg.rec, i, times)
      modifies this`installComplete, reg, c
      ensures old(c.log) <= c.log && ConfigurationSync.Guarded(old(c.store), |old(c.log)|, c.log, c.store)
      ensures finished ==> IsClear(Clearance(o.cr, old(c.store), c.Now()))
      ensures Kept(noInit, old(reg.rec), reg.rec, finished)
      ensures Remembers(reg.rec, i, times)
      ensures reg.Undisturbed() ==> Verdict(noInit, old(reg.rec), reg.rec, false, finished, None)
      ensures Unhindered(c, o.cr, old(c.workloads), old(c.store)) ==> CleanupPass.Advances(o.cr, old(c.store), c.store, finished)
    {
      ghost var r := reg.rec;
      var next;
      finished, next := Cleanup(reg, c, o, v);
      DeletionEnds(noInit, r, reg.rec, o, v, finished, next, i, times);
      UndisturbedDeletion(noInit, r, o, finished, next);
    }

    /** The branch for a live resource, as fetched. */
    method LivePass(reg: Registry, c: Cluster, o: Obs, v: nat, e: Setting, ghost i: nat, ghost times: set<int>)
      returns (dead: bool, ghost report: Report)
      requires TokenExpiry.Second <= e.began <= e.ended && (noInit ==> o.finalizers != [])
      requires !o.deleting && reg.rec.obs == Some(o) && reg.rec.version == v && Remembers(reg.rec, i, times)
      modifies this`installComplete, reg, c
      ensures old(c.log) <= c.log && ConfigurationSync.Guarded(old(c.store), |old(c.log)|, c.log, c.store)
      ensures Kept(noInit, old(reg.rec), reg.rec, false)
      ensures Reports(c, TruthOf(c), o, e, StageMark(o.cr), report, old(c.store), c.store)
      ensures Accounts(reg.rec, i, times, e, RanOf(report, o.spec.period, old(reg.rec).incarnation))
      ensures reg.Undisturbed() ==> Verdict(noInit, old(reg.rec), reg.rec, dead, false, Some(NextStatus(o, report)))
    {
      ghost var r := reg.rec;
      var next;
      dead, next, report := PassOver(reg, c, o, v, e);
      EndLive(reg, o, v, next, dead, r);
      AccountedFor(c, TruthOf(c), o, e, report, StageMark(o.cr), old(c.store), c.store, r, reg.rec, i, times);
    }

    /** How a pass over a live resource ends, which was `r` when it was fetched; a crash leaves it as it is. */
    method EndLive(reg: Registry, o: Obs, v: nat, next: Status, dead: bool, ghost r: Record)
      requires !o.deleting && (noInit ==> o.finalizers != []) && r.obs == Some(o) && r.version == v
      requires (exists actions :: reg.rec == Acts(r, actions).(touched := true)) && (o.status.migrated ==> next.migrated)
      modifies reg
      ensures LatchKept(r) ==> LatchKept(reg.rec)
      ensures noInit && Safe(r) ==> Safe(reg.rec) && Lasts(r, reg.rec)
      ensures Remembers(reg.rec, r.incarnation, {o.status.lastSynced, next.lastSynced})
      ensures reg.Undisturbed() && old(reg.rec) == r.(touched := true) ==> Verdict(noInit, r, reg.rec, dead, false, Some(next))
    {
      ghost var mid := reg.rec;
      Entered(r, mid, o, v);
      if !dead { Close(reg, o, v, next); }
      LiveEnds(noInit, r, mid, reg.rec, o, v, dead, next);
      if Safe(r) && r.touched { SafeCloseIff(noInit, r, o, false, next); }
    }

    /** The resource is fetched; `from` is the moment before. */
    method Handle(reg: Registry, c: Cluster, o: Obs, v: nat, e: Setting, ghost i: nat, ghost times: set<int>, ghost from: Moment)
      returns (dead: bool, ghost y: Yield)
      requires TokenExpiry.Second <= e.began <= e.ended && Fetches(noInit, reg, c, o, v, i, times, from)
      modifies this`installComplete, reg, c
      ensures old(c.log) <= c.log && ConfigurationSync.Guarded(old(c.store), |old(c.log)|, c.log, c.store)
      ensures Yields(noInit, reg, c, TruthOf(c), e, from, MomentOf(reg, c), y) && Accounts(reg.rec, i, times, e, y.ran)
      ensures reg.Undisturbed() ==> Verdict(noInit, old(reg.rec), reg.rec, dead, y.cleaned.Some?, Stated(old(reg.rec), y))
    {
      if o.deleting {
        dead := false;
        y := HandleDeletion(reg, c, o, v, e, i, times, from);
      } else if Runs(noInit, o) {
        dead, y := HandleLive(reg, c, o, v, e, i, times, from);
      } else {
        dead := false;
        y := HandleUnclaimed(reg, c, o, v, e, i, times, from);
      }
    }

    method HandleDeletion(reg: Registry, c: Cluster, o: Obs, v: nat, e: Setting, ghost i: nat, ghost times: set<int>, ghost from: Moment) returns (ghost y: Yield)
      requires o.deleting && Fetches(noInit, reg, c, o, v, i, times, from)
      modifies this`installComplete, reg, c
      ensures old(c.log) <= c.log && ConfigurationSync.Guarded(old(c.store), |old(c.log)|, c.log, c.store)
      ensures Yields(noInit, reg, c, TruthOf(c), e, from, MomentOf(reg, c), y) && Accounts(reg.rec, i, times, e, y.ran)
      ensures reg.Undisturbed() ==> Verdict(noInit, old(reg.rec), reg.rec, false, y.cleaned.Some?, Stated(old(reg.rec), y))
    {
      ghost var met := reg.rec;
      var finished := DeletePass(reg, c, o, v, i, times);
      y := Cleared(o, finished, from, MomentOf(reg, c));
      KeptOn(noInit, from.rec, met, reg.rec, false, finished);
      YieldsCleanup(noInit, reg, c, TruthOf(c), e, from, MomentOf(reg, c), o, finished);
    }

    /** A live resource without a finalizer, in noInit mode: it gets one, and no more. */
    method HandleUnclaimed(reg: Registry, c: Cluster, o: Obs, v: nat, e: Setting, ghost i: nat, ghost times: set<int>, ghost from: Moment) returns (ghost y: Yield)
      requires !o.deleting && !Runs(noInit, o) && Fetches(noInit, reg, c, o, v, i, times, from)
      modifies reg
      ensures Yields(noInit, reg, c, TruthOf(c), e, from, MomentOf(reg, c), y) && Accounts(reg.rec, i, times, e, y.ran)
      ensures reg.Undisturbed() ==> Verdict(noInit, old(reg.rec), reg.rec, false, y.cleaned.Some?, Stated(old(reg.rec), y))
    {
      ghost var met := reg.rec;
      AddFinalizer(reg, o, v, i, times);
      y := Yield(None, None, None);
      KeptOn(noInit, from.rec, met, reg.rec, false, false);
      YieldsNothing(noInit, reg, c, TruthOf(c), e, from, MomentOf(reg, c));
    }

    method HandleLive(reg: Registry, c: Cluster, o: Obs, v: nat, e: Setting, ghost i: nat, ghost times: set<int>, ghost from: Moment)
      returns (dead: bool, ghost y: Yield)
      requires TokenExpiry.Second <= e.began <= e.ended && Runs(noInit, o) && Fetches(noInit, reg, c, o, v, i, times, from)
      modifies this`installComplete, reg, c
      ensures old(c.log) <= c.log && ConfigurationSync.Guarded(old(c.store), |old(c.log)|, c.log, c.store)
      ensures Yields(noInit, reg, c, TruthOf(c), e, from, MomentOf(reg, c), y) && Accounts(reg.rec, i, times, e, y.ran)
      ensures y.cleaned.None? && (reg.Undisturbed() ==> Verdict(noInit, old(reg.rec), reg.rec, dead, false, Stated(old(reg.rec), y)))
    {
      ghost var met := reg.rec;
      ghost var report;
      dead, report := LivePass(reg, c, o, v, e, i, times);
      y := Reported(reg, o, report, from);
      KeptOn(noInit, from.rec, met, reg.rec, false, false);
      YieldsReport(noInit, reg, c, TruthOf(c), e, from, MomentOf(reg, c), o, report);
    }

    /**
     One pass. Whatever fails and whatever users do meanwhile: in noInit mode a resource whose stages have
     run goes only by a pass that finished its cleanup, and then every cleanup stage's goal holds. Where
     nothing disturbs it, a pass over such a resource is safe exactly then or in noInit mode: outside it, an
     unfinished cleanup takes the finalizer and the resource is lost.
     */
    method Reconcile(reg: Registry, c: Cluster, e: Setting, ghost i: nat, ghost times: set<int>)
      returns (dead: bool, ghost y: Yield)
      requires TokenExpiry.Second <= e.began <= e.ended && Remembers(reg.rec, i, times)
      modifies this`installComplete, reg, c
      ensures old(c.log) <= c.log && ConfigurationSync.Guarded(old(c.store), |old(c.log)|, c.log, c.store)
      ensures Yields(noInit, reg, c, TruthOf(c), e, old(MomentOf(reg, c)), MomentOf(reg, c), y)
      ensures Accounts(reg.rec, i, times, e, y.ran)
      ensures reg.Undisturbed() ==> Verdict(noInit, old(reg.rec), reg.rec, dead, y.cleaned.Some?, Stated(old(reg.rec), y))
    {
      dead, y := false, Yield(None, None, None);
      ghost var from := MomentOf(reg, c);
      var got := reg.Fetch();
      AfterFetch(noInit, reg, from.rec, from.turn, i, times);
      if got.Got? { dead, y := Handle(reg, c, got.obs, got.version, e, i, times, from); }
      else { YieldsNothing(noInit, reg, c, TruthOf(c), e, from, MomentOf(reg, c)); }
    }

    /** A pass whose crash, if it comes to one, restarts the process. */
    method Turn(reg: Registry, c: Cluster, e: Setting, ghost i: nat, ghost times: set<int>) returns (ghost y: Yield)
      requires TokenExpiry.Second <= e.began <= e.ended && Remembers(reg.rec, i, times)
      modifies this`installComplete, reg, c
      ensures old(c.log) <= c.log && ConfigurationSync.Guarded(old(c.store), |old(c.log)|, c.log, c.store)
      ensures Yields(noInit, reg, c, TruthOf(c), e, old(MomentOf(reg, c)), MomentOf(reg, c), y)
      ensures Accounts(reg.rec, i, times, e, y.ran)
    {
      var dead;
      dead, y := Reconcile(reg, c, e, i, times);
      if dead { installComplete := false; }
    }

    /**
     Any number of passes, one moment to the next: coverage at every API call of all of them, nothing installed is
     ever abandoned, and the syncs of every incarnation form a run.
     */
    method Serve(reg: Registry, c: Cluster, settings: seq<Setting>) returns (ghost moments: seq<Moment>, ghost ys: seq<Yield>)
      requires Timed(settings)
      modifies this`installComplete, reg, c
      ensures TokenRefreshers.Covered(old(c.store)) ==>
        TokenRefreshers.Covered(c.store) && TokenRefreshers.CoveredThroughout(c.log, |old(c.log)|)
      ensures |ys| == |settings| && History(noInit, reg, c, TruthOf(c), settings, moments, ys)
      ensures moments[0] == old(MomentOf(reg, c)) && moments[|settings|] == MomentOf(reg, c)
      ensures Kept(noInit, old(reg.rec), reg.rec, AnyCleared(ys))
      ensures InTurn(settings) ==> forall i :: FormRun(SyncsOf(ys, i))
    {
      ghost var i, times;
      moments, ys, i, times := ServeSome(reg, c, settings, |settings|);
      if InTurn(settings) { BookedRuns(ys, i, times, settings, |settings|); }
    }

    /** The first `k` passes. */
    method ServeSome(reg: Registry, c: Cluster, settings: seq<Setting>, k: nat) returns (ghost moments: seq<Moment>, ghost ys: seq<Yield>, ghost i: nat, ghost times: set<int>)
      requires k <= |settings| && Timed(settings)
      modifies this`installComplete, reg, c
      ensures |ys| == k && ConfigurationSync.Guarded(old(c.store), |old(c.log)|, c.log, c.store)
      ensures Served(noInit, reg, c, TruthOf(c), settings, moments, ys, i, times, old(MomentOf(reg, c)), MomentOf(reg, c))
      decreases k
    {
      ghost var first := MomentOf(reg, c);
      if k == 0 {
        moments, ys, i, times := [first], [], first.rec.incarnation, FirstTimes(first.rec);
        ServedFirst(noInit, reg, c, TruthOf(c), settings, first);
      } else {
        ghost var start, n := c.store, |c.log|;
        moments, ys, i, times := ServeSome(reg, c, settings, k - 1);
        moments, ys, i, times := ServeOne(reg, c, settings, k - 1, moments, ys, i, times, first, start, n);
      }
    }

    /** Pass number `k`. */
    method ServeOne(reg: Registry, c: Cluster, settings: seq<Setting>, k: nat, ghost moments: seq<Moment>, ghost ys: seq<Yield>,
                    ghost i: nat, ghost times: set<int>, ghost first: Moment, ghost start: Store, ghost n: nat)
      returns (ghost ms: seq<Moment>, ghost more: seq<Yield>, ghost last: nat, ghost left: set<int>)
      requires |ys| == k < |settings| && Timed(settings) && ConfigurationSync.Guarded(start, n, c.log, c.store)
      requires Served(noInit, reg, c, TruthOf(c), settings, moments, ys, i, times, first, MomentOf(reg, c))
      modifies this`installComplete, reg, c
      ensures ConfigurationSync.Guarded(start, n, c.log, c.store)
      ensures |more| == k + 1 && Served(noInit, reg, c, TruthOf(c), settings, ms, more, last, left, first, MomentOf(reg, c))
    {
      ghost var before, s, from := c.log, c.store, MomentOf(reg, c);
      var y := Turn(reg, c, settings[k], i, times);
      ConfigurationSync.GuardedOn(start, n, before, s, c.log, c.store);
      ServedOn(noInit, reg, c, TruthOf(c), settings, moments, ys, i, times, first, from, MomentOf(reg, c), y);
      ms, more, last, left := moments + [MomentOf(reg, c)], ys + [y], LastOf(y, i), TimesOf(y, times);
    }
  }

  /** The incarnation of the last sync and what LastSynced may be for it, one pass on. */
  function LastOf(y: Yield, i: nat): nat {
    if y.ran.Some? then y.ran.value.incarnation else i
  }

  function TimesOf(y: Yield, times: set<int>): set<int> {
    if y.ran.Some? then {y.ran.value.pass.before, y.ran.value.pass.after} else times
  }

  /** What the passes so far come to, from the moment `first` to the moment `last`. */
  ghost predicate Served(noInit: bool, reg: Registry, c: Cluster, truth: Truth, settings: seq<Setting>, moments: seq<Moment>, ys: seq<Yield>,
                         i: nat, times: set<int>, first: Moment, last: Moment)
  {
    && History(noInit, reg, c, truth, settings, moments, ys) && moments[0] == first && moments[|ys|] == last
    && Kept(noInit, first.rec, last.rec, AnyCleared(ys))
    && Remembers(last.rec, i, times) && Booked(ys, i, times, settings, |ys|)
  }

  function FirstTimes(r: Record): set<int> {
    {if r.obs.Some? then r.obs.value.status.lastSynced else 0}
  }

  lemma ServedFirst(noInit: bool, reg: Registry, c: Cluster, truth: Truth, settings: seq<Setting>, first: Moment)
    ensures Served(noInit, reg, c, truth, settings, [first], [], first.rec.incarnation, FirstTimes(first.rec), first, first)
  {
  }

  lemma ServedOn(noInit: bool, reg: Registry, c: Cluster, truth: Truth, settings: seq<Setting>, moments: seq<Moment>, ys: seq<Yield>, i: nat, times: set<int>,
                 first: Moment, from: Moment, to: Moment, y: Yield)
    requires Served(noInit, reg, c, truth, settings, moments, ys, i, times, first, from) && |ys| < |settings|
    requires Yields(noInit, reg, c, truth, settings[|ys|], from, to, y) && Accounts(to.rec, i, times, settings[|ys|], y.ran)
    ensures Served(noInit, reg, c, truth, settings, moments + [to], ys + [y], LastOf(y, i), TimesOf(y, times), first, to)
  {
    HistoryOn(noInit, reg, c, truth, settings, moments, ys, to, y);
    YieldsKeep(noInit, reg, c, truth, settings[|ys|], from, to, y);
    KeptOn(noInit, first.rec, from.rec, to.rec, AnyCleared(ys), y.cleaned.Some?);
    ClearedOn(ys, y);
    BookedOn(to.rec, ys, i, times, settings, |ys|, y);
  }

  lemma YieldsKeep(noInit: bool, reg: Registry, c: Cluster, truth: Truth, e: Setting, from: Moment, to: Moment, y: Yield)
    requires Yields(noInit, reg, c, truth, e, from, to, y)
    ensures Kept(noInit, from.rec, to.rec, y.cleaned.Some?)
  {
  }

  /** What holds after a pass over a live resource that did not crash, or of one that did, whatever users did. */
  lemma LiveEnds(noInit: bool, r: Record, mid: Record, now: Record, o: Obs, v: nat, dead: bool, next: Status)
    requires dead ==> now == mid
    requires !dead ==> Ends(noInit, mid, now, o, v, false, next)
    requires LatchKept(r) ==> LatchKept(mid)
    requires Tracks(mid, o, v) && Remembers(mid, r.incarnation, {o.status.lastSynced}) && (o.status.migrated ==> next.migrated)
    requires !o.deleting && (noInit ==> o.finalizers != []) && (Safe(r) && o.finalizers != [] ==> Held(mid, o, v) && Lasts(r, mid))
    ensures LatchKept(r) ==> LatchKept(now)
    ensures noInit && Safe(r) ==> Safe(now) && Lasts(r, now)
    ensures Remembers(now, r.incarnation, {o.status.lastSynced, next.lastSynced})
  {
    assert {o.status.lastSynced} + {next.lastSynced} == {o.status.lastSynced, next.lastSynced};
    if !dead {
      if LatchKept(r) { LatchedEnd(noInit, mid, now, o, v, false, next); }
      if noInit && Safe(r) { SafeEnd(noInit, mid, now, o, v, false, next); }
      RememberedEnd(noInit, mid, now, o, v, false, next, r.incarnation, {o.status.lastSynced});
    }
  }

  /** What a pass did to LastSynced is what its report says. */
  lemma AccountedFor(c: Cluster, truth: Truth, o: Obs, e: Setting, report: Report, mark: (Key, Obj) -> bool, a: Store, b: Store,
                     r: Record, now: Record, i: nat, times: set<int>)
    requires Reports(c, truth, o, e, mark, report, a, b) && r.obs == Some(o) && Remembers(r, i, times)
    requires Remembers(now, r.incarnation, {o.status.lastSynced, NextStatus(o, report).lastSynced})
    ensures Accounts(now, i, times, e, RanOf(report, o.spec.period, r.incarnation))
  {
    if report.sync.NoSync? {
      assert {o.status.lastSynced, NextStatus(o, report).lastSynced} == {o.status.lastSynced};
      NothingNewRemembered(now, r, i, times, o.status.lastSynced);
    }
  }

  /** What holds after a pass over a resource under deletion, whatever users did. */
  lemma DeletionEnds(noInit: bool, r: Record, now: Record, o: Obs, v: nat, finished: bool, next: Status, i: nat, times: set<int>)
    requires Ends(noInit, r, now, o, v, finished, next) && r.obs == Some(o) && r.version == v && o.deleting
    requires next.migrated == o.status.migrated && next.lastSynced == o.status.lastSynced && Remembers(r, i, times)
    ensures LatchKept(r) ==> LatchKept(now)
    ensures noInit && Safe(r) ==> Safe(now) && (finished || Stands(r, now))
    ensures Remembers(now, i, times)
  {
    if LatchKept(r) { LatchedEnd(noInit, r, now, o, v, finished, next); }
    if noInit && Safe(r) { SafeEnd(noInit, r, now, o, v, finished, next); }
    RememberedEnd(noInit, r, now, o, v, finished, next, r.incarnation, {o.status.lastSynced});
    assert {o.status.lastSynced} + {next.lastSynced} == {o.status.lastSynced};
    NothingNewRemembered(now, r, i, times, o.status.lastSynced);
  }

  lemma UndisturbedDeletion(noInit: bool, r: Record, o: Obs, finished: bool, next: Status)
    requires r.obs == Some(o) && o.deleting && next.migrated == o.status.migrated
    ensures Verdict(noInit, r, Closed(noInit, r, o, finished, next), false, finished, None)
  {
    if Safe(r) && r.touched { SafeCloseIff(noInit, r, o, finished, next); }
    if o.finalizers != [] { StrippedClose(r, o, finished, next); }
  }

  lemma Entered(r: Record, mid: Record, o: Obs, v: nat)
    requires r.obs == Some(o) && r.version == v && exists actions :: mid == Acts(r, actions).(touched := true)
    ensures LatchKept(r) ==> LatchKept(mid)
    ensures Tracks(mid, o, v) && Remembers(mid, r.incarnation, {o.status.lastSynced})
    ensures Safe(r) && o.finalizers != [] ==> Held(mid, o, v) && Lasts(r, mid)
  {
    var actions :| mid == Acts(r, actions).(touched := true);
    ActsAreSafe(r, actions);
    ActsRemember(r, actions, r.incarnation, {o.status.lastSynced});
  }

  ghost predicate Unhindered(c: Cluster, cr: Cr, workloads: set<Key>, s: Store) {
    Teardown.Smooth(c, cr, workloads) && Teardown.LoggingSound(s)
  }

  // ---------- The syncs of many passes ----------

  ghost predicate Timed(settings: seq<Setting>) {
    forall k :: 0 <= k < |settings| ==> TokenExpiry.Second <= settings[k].began <= settings[k].ended
  }

  /** Each pass begins after the one before it ended. */
  ghost predicate InTurn(settings: seq<Setting>) {
    forall j, k :: 0 <= j < k < |settings| ==> settings[j].ended <= settings[k].began
  }

  function Passes(rans: seq<Ran>): (ps: seq<SyncGate.Pass>)
    ensures |ps| == |rans| && forall k :: 0 <= k < |ps| ==> ps[k] == rans[k].pass
  {
    seq(|rans|, k requires 0 <= k < |rans| => rans[k].pass)
  }

  ghost predicate OnePeriod(rans: seq<Ran>, period: int) {
    forall k :: 0 <= k < |rans| ==> rans[k].period in {None, Some(period)}
  }

  /**
   The syncs of one incarnation of the resource, under one resync period, are a run as the gate knows it: a
   sync that is due stays due, and while every status is persisted and nothing is forced, syncs keep their distance.
   */
  ghost predicate FormRun(rans: seq<Ran>) {
    && (forall j, k :: 0 <= j < k < |rans| ==> rans[j].incarnation == rans[k].incarnation)
    && (forall period :: OnePeriod(rans, period) ==>
          SyncGate.IsLossyRun(Passes(rans), period) && (SyncGate.Persisted(Passes(rans)) ==> SyncGate.Spaced(Passes(rans), period)))
  }

  ghost predicate Latest(rans: seq<Ran>, i: nat, times: set<int>)
    requires rans != []
  {
    var last := rans[|rans| - 1];
    last.incarnation == i && times == {last.pass.before, last.pass.after}
  }

  ghost predicate EndedBy(rans: seq<Ran>, settings: seq<Setting>, k: nat) {
    rans != [] ==> exists j :: 0 <= j < k && j < |settings| && settings[j].ended == rans[|rans| - 1].pass.ended
  }

  /** The syncs among these passes that were for incarnation `i`. */
  function SyncsOf(ys: seq<Yield>, i: nat): seq<Ran> {
    if ys == [] then []
    else
      var ran := ys[|ys| - 1].ran;
      SyncsOf(ys[..|ys| - 1], i) + if ran.Some? && ran.value.incarnation == i then [ran.value] else []
  }

  lemma SyncsOn(ys: seq<Yield>, y: Yield, i: nat)
    ensures SyncsOf(ys + [y], i) ==
      if y.ran.Some? && y.ran.value.incarnation == i then SyncsOf(ys, i) + [y.ran.value] else SyncsOf(ys, i)
  {
    assert (ys + [y])[..|ys|] == ys;
  }

  lemma OneMoreRun(rans: seq<Ran>, times: set<int>, x: Ran, settings: seq<Setting>, k: nat)
    requires InTurn(settings) && k < |settings| && FormRun(rans) && EndedBy(rans, settings, k)
    requires rans != [] ==> Latest(rans, x.incarnation, times) && x.pass.before in times
    requires x.pass.began == settings[k].began && x.pass.ended == settings[k].ended
    requires forall period :: x.period in {None, Some(period)} ==> SyncGate.Sound(x.pass, period)
    ensures FormRun(rans + [x]) && EndedBy(rans + [x], settings, k + 1)
  {
    var more := rans + [x];
    forall period | OnePeriod(more, period)
      ensures SyncGate.IsLossyRun(Passes(more), period) && (SyncGate.Persisted(Passes(more)) ==> SyncGate.Spaced(Passes(more), period))
    {
      assert x.period == more[|more| - 1].period;
      if rans != [] {
        assert forall j :: 0 <= j < |rans| ==> more[j] == rans[j];
        assert OnePeriod(rans, period);
        SyncGate.LossyRunOn(Passes(rans), x.pass, period);
        assert Passes(more) == Passes(rans) + [x.pass];
      } else {
        assert Passes(more) == [x.pass];
      }
      if SyncGate.Persisted(Passes(more)) { SyncGate.PersistedIsSpaced(Passes(more), period); }
    }
  }

  /** The syncs for incarnation `j` among `k` passes. */
  ghost predicate RunAt(ys: seq<Yield>, j: nat, settings: seq<Setting>, k: nat) {
    FormRun(SyncsOf(ys, j)) && EndedBy(SyncsOf(ys, j), settings, k)
  }

  ghost predicate AllRunAt(ys: seq<Yield>, settings: seq<Setting>, k: nat) {
    forall j :: RunAt(ys, j, settings, k)
  }

  lemma RunAtOn(ys: seq<Yield>, y: Yield, j: nat, times: set<int>, settings: seq<Setting>, k: nat)
    requires InTurn(settings) && k < |settings| && RunAt(ys, j, settings, k)
    requires y.ran.Some? && y.ran.value.incarnation == j ==>
      && (SyncsOf(ys, j) != [] ==> Latest(SyncsOf(ys, j), j, times) && y.ran.value.pass.before in times)
      && y.ran.value.pass.began == settings[k].began && y.ran.value.pass.ended == settings[k].ended
      && (forall period :: y.ran.value.period in {None, Some(period)} ==> SyncGate.Sound(y.ran.value.pass, period))
    ensures RunAt(ys + [y], j, settings, k + 1)
  {
    SyncsOn(ys, y, j);
    if y.ran.Some? && y.ran.value.incarnation == j { OneMoreRun(SyncsOf(ys, j), times, y.ran.value, settings, k); }
  }

  /** The book after `k` passes: none is for an incarnation after `i`, and the last for `i` left one of `times`. */
  ghost predicate Booked(ys: seq<Yield>, i: nat, times: set<int>, settings: seq<Setting>, k: nat) {
    && Latter(ys, i, times)
    && (InTurn(settings) ==> AllRunAt(ys, settings, k))
  }

  lemma BookedOn(r: Record, ys: seq<Yield>, i: nat, times: set<int>, settings: seq<Setting>, k: nat, y: Yield)
    requires k < |settings| && Booked(ys, i, times, settings, k) && Accounts(r, i, times, settings[k], y.ran)
    ensures Booked(ys + [y], LastOf(y, i), TimesOf(y, times), settings, k + 1)
  {
    LatestOn(ys, i, times, y);
    if InTurn(settings) { RunsOn(r, ys, i, times, settings, k, y); }
  }

  /** Which sync is the last. */
  ghost predicate Latter(ys: seq<Yield>, i: nat, times: set<int>) {
    && (forall j :: j > i ==> SyncsOf(ys, j) == [])
    && (SyncsOf(ys, i) != [] ==> Latest(SyncsOf(ys, i), i, times))
  }

  lemma LatestOn(ys: seq<Yield>, i: nat, times: set<int>, y: Yield)
    requires Latter(ys, i, times) && (y.ran.Some? ==> i <= y.ran.value.incarnation)
    ensures Latter(ys + [y], LastOf(y, i), TimesOf(y, times))
  {
    SyncsOn(ys, y, LastOf(y, i));
    forall j: nat | j > LastOf(y, i) ensures SyncsOf(ys + [y], j) == [] { SyncsOn(ys, y, j); }
  }

  lemma RunsOn(r: Record, ys: seq<Yield>, i: nat, times: set<int>, settings: seq<Setting>, k: nat, y: Yield)
    requires InTurn(settings) && k < |settings| && Booked(ys, i, times, settings, k) && Accounts(r, i, times, settings[k], y.ran)
    ensures AllRunAt(ys + [y], settings, k + 1)
  {
    var more, m := ys + [y], k + 1;
    forall j: nat ensures RunAt(more, j, settings, m) {
      assert RunAt(ys, j, settings, k);
      RunAtOn(ys, y, j, times, settings, k);
    }
  }

  lemma BookedRuns(ys: seq<Yield>, i: nat, times: set<int>, settings: seq<Setting>, k: nat)
    requires Booked(ys, i, times, settings, k) && InTurn(settings)
    ensures forall j :: FormRun(SyncsOf(ys, j))
  {
    forall j: nat ensures FormRun(SyncsOf(ys, j)) { assert RunAt(ys, j, settings, k); }
  }

  // ---------- Outside noInit mode ----------

  function GrafanaVersion(cr: Cr): Key { Key(Csv, cr.ns, "grafana-operator.v1") }
  function PrometheusVersion(cr: Cr): Key { Key(Csv, cr.ns, "prometheusoperator.v1") }

  function TwoVersions(cr: Cr): Store {
    map[GrafanaVersion(cr) := Blank, PrometheusVersion(cr) := Blank]
  }

  lemma BothAreOperators(cr: Cr)
    ensures {GrafanaVersion(cr), PrometheusVersion(cr)} <= OperatorCsvs(TwoVersions(cr), cr.ns)
    ensures GrafanaVersion(cr) != PrometheusVersion(cr) && Teardown.LoggingSound(TwoVersions(cr))
  {
    assert GrafanaVersion(cr).name[0] != PrometheusVersion(cr).name[0];
  }

  lemma OneIsLeft(cr: Cr, a: Store, b: Store, finished: bool, x: Key, y: Key)
    requires CleanupPass.Advances(cr, a, b, finished) && cr.ns != LoggingNs && x != y && {x, y} <= OperatorCsvs(a, cr.ns)
    ensures !finished && OperatorCsvs(b, cr.ns) != {}
  {
    var k :| k in OperatorCsvs(a, cr.ns) && OperatorCsvs(b, cr.ns) == OperatorCsvs(a, cr.ns) - {k};
    assert x in OperatorCsvs(b, cr.ns) || y in OperatorCsvs(b, cr.ns);
  }

  lemma UnhinderedYield(reg: Registry, c: Cluster, truth: Truth, e: Setting, from: Moment, to: Moment, o: Obs, y: Yield)
    requires Yields(false, reg, c, truth, e, from, to, y) && reg.Undisturbed() && from.rec.obs == Some(o) && o.deleting
    requires Unhindered(c, o.cr, from.now.workloads, from.now.store)
    ensures CleanupPass.Advances(o.cr, from.now.store, to.now.store, y.cleaned.Some?)
  {
    assert Seen(reg, from.rec, from.turn) == Some(o);
  }

  /**
   A loss, as it happens: the cleanup of a resource with two operator ClusterServiceVersions needs more than
   one pass, but outside noInit mode the first pass takes the finalizer. The resource is gone with that pass, and
   the other version is left behind for good.
   */
  method StrippedIsLost(op: Controller, reg: Registry, c: Cluster, ghost o: Obs, e: Setting) returns (ghost y: Yield)
    requires !op.noInit && reg.Undisturbed() && c.Reliable() && c.Quiet() && TokenExpiry.Second <= e.began <= e.ended
    requires reg.rec.obs == Some(o) && reg.rec.touched && o.deleting && o.finalizers != [] && o.cr.ns != LoggingNs
    requires c.store == TwoVersions(o.cr) && c.workloads == {}
    modifies op`installComplete, reg, c
    ensures Yields(false, reg, c, TruthOf(c), e, old(MomentOf(reg, c)), MomentOf(reg, c), y) && y.cleaned.None?
    ensures reg.rec.obs.None? && reg.rec.lost && OperatorCsvs(c.store, o.cr.ns) != {}
  {
    BothAreOperators(o.cr);
    var dead;
    dead, y := op.Reconcile(reg, c, e, reg.rec.incarnation, {o.status.lastSynced});
    UnhinderedYield(reg, c, TruthOf(c), e, old(MomentOf(reg, c)), MomentOf(reg, c), o, y);
    OneIsLeft(o.cr, TwoVersions(o.cr), c.store, y.cleaned.Some?, GrafanaVersion(o.cr), PrometheusVersion(o.cr));
  }

  /** And there is such an operator, resource and cluster. */
  method LossHappens(cr: Cr, spec: SyncGate.SyncSpec, e: Setting) returns (reg: Registry, c: Cluster, ghost y: Yield)
    requires cr.ns != LoggingNs && TokenExpiry.Second <= e.began <= e.ended
    ensures fresh(reg) && fresh(c) && y.cleaned.None?
    ensures Yields(false, reg, c, TruthOf(c), e, Moment(Doomed(cr, spec), 0, Snapshot(TwoVersions(cr), {})), MomentOf(reg, c), y)
    ensures reg.rec.obs.None? && reg.rec.lost && OperatorCsvs(c.store, cr.ns) != {}
  {
    reg := new Registry(Doomed(cr, spec), n => Healthy, (n, x) => []);
    c := new Cluster(TwoVersions(cr), {}, n => Healthy, (n, s, w) => w, (n, k) => Shown(0, []));
    var op := new Controller(false);
    y := StrippedIsLost(op, reg, c, Doomed(cr, spec).obs.value, e);
  }

  /** A resource under deletion for which stages have run. */
  function Doomed(cr: Cr, spec: SyncGate.SyncSpec): Record {
    Record(Some(Obs(cr, spec, true, [Finalizer], InitialStatus)), 1, true, false, false, 1)
  }
}
