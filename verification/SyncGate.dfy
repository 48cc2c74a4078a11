/**
 When a configuration sync runs: the gate at the head of the Configuration stage, and what it means for
 a run of reconcile passes. Times are nanoseconds; LastSynced is in whole seconds.
 */
module SyncGate {
  import opened Kube
  import opened Observability
  import opened Stack
  import opened TokenExpiry

  /** The parts of the spec the gate reads; a period of None does not parse. */
  datatype SyncSpec = SyncSpec(selector: Option<Labels>, period: Option<int>)

  datatype Gate = Skipped | GateFailed | Throttled | Open

  /** Is a sync due at `now`, `period` after the last one? Zero means there was none. */
  predicate IsDue(lastSynced: int, period: int, now: int) {
    lastSynced == 0 || now >= lastSynced * Second + period
  }

  ghost predicate OnlyReads(log: seq<Step>, n: nat, s: Store) {
    forall i :: n <= i < |log| ==> log[i].op == Read && log[i].post.store == s
  }

  predicate StackPresent(cr: Cr, s: Store) {
    AlertmanagerCr(cr) in s && PrometheusCr(cr) in s && (!cr.Descoped() ==> GrafanaCr(cr) in s)
  }

  /** The custom resources of the stack by kind, namespace and name; Grafana's belongs to it only outside descoped mode. */
  lemma StackPresentIff(cr: Cr, s: Store)
    ensures StackPresent(cr, s) <==>
      && (exists k :: k in s && k.kind == Prometheus && k.ns == cr.OperatorNs() && k.name == cr.Prometheus())
      && (exists k :: k in s && k.kind == Alertmanager && k.ns == cr.OperatorNs() && k.name == cr.Alertmanager())
      && (cr.Descoped() || exists k :: k in s && k.kind == Grafana && k.ns == cr.ns && k.name == cr.Grafana())
  {
  }

  /** Any answer but "gone" counts as missing, an unreachable API server too. */
  method CheckForMissingCr(c: Cluster, cr: Cr) returns (missing: bool)
    modifies c
    ensures old(c.log) <= c.log && c.store == old(c.store) && OnlyReads(c.log, |old(c.log)|, c.store)
    ensures !missing ==> StackPresent(cr, c.store)
    ensures c.Reliable() && missing ==> !StackPresent(cr, c.store)
  {
    var alertmanager := c.Get(AlertmanagerCr(cr));
    var prometheus := c.Get(PrometheusCr(cr));
    missing := !alertmanager.Found? || !prometheus.Found?;
    if !cr.Descoped() {
      var grafana := c.Get(GrafanaCr(cr));
      missing := missing || !grafana.Found?;
    }
  }

  /** A sync is due, the selector is there, and no stored token hides its lifetime. */
  ghost predicate Opens(cr: Cr, spec: SyncSpec, s: Store, lastSynced: int, now: int) {
    && (spec.selector.Some? || cr.ExternalSyncDisabled())
    && (forall k :: k in Selected(s, Secret, cr.ns, TokenLabels) ==> ListerView(s[k], now) != Broken)
    && (cr.ExternalSyncDisabled() || lastSynced == 0 || (spec.period.Some? && IsDue(lastSynced, spec.period.value, now)))
  }

  /** What may override the period: a disabled external sync, a stack resource missing after the migration, or a due token. */
  ghost predicate Overridden(cr: Cr, migrated: bool, s: Store, now: int) {
    || cr.ExternalSyncDisabled()
    || (migrated && !StackPresent(cr, s))
    || exists k :: k in Selected(s, Secret, cr.ns, TokenLabels) && ListerView(s[k], now) == Due
  }

  /**
   The gate. `forced` tells whether anything overrode the period: an expired token, a disabled external
   sync, or a stack resource missing after the migration.
   */
  method Check(c: Cluster, cr: Cr, spec: SyncSpec, migrated: bool, lastSynced: int, now: int) returns (gate: Gate, forced: bool)
    modifies c
    ensures old(c.log) <= c.log && c.store == old(c.store) && OnlyReads(c.log, |old(c.log)|, c.store)
    ensures gate.Skipped? <==> spec.selector.None? && !cr.ExternalSyncDisabled()
    ensures gate.Throttled? ==>
      && !forced && spec.period.Some? && !IsDue(lastSynced, spec.period.value, now)
      && !cr.ExternalSyncDisabled() && (migrated ==> StackPresent(cr, c.store))
      && forall k :: k in Selected(c.store, Secret, cr.ns, TokenLabels) ==> ListerView(c.store[k], now) == NotDue
    ensures gate.Open? ==> forced || lastSynced == 0 || (spec.period.Some? && IsDue(lastSynced, spec.period.value, now))
    ensures forced && c.Reliable() ==> Overridden(cr, migrated, c.store, now)
    ensures gate.Open? && cr.ExternalSyncDisabled() ==> forced
    ensures c.Reliable() && Opens(cr, spec, c.store, lastSynced, now) ==> gate.Open?
  {
    forced := false;
    if spec.selector.None? && !cr.ExternalSyncDisabled() { return Skipped, false; }
    var expired := TokensExpired(c, cr, now);
    if expired.CheckFailed? { return GateFailed, false; }
    forced := expired.any || cr.ExternalSyncDisabled();
    if migrated {
      var missing := CheckForMissingCr(c, cr);
      forced := forced || missing;
    }
    if lastSynced != 0 && !forced {
      if spec.period.None? { return GateFailed, forced; }
      if now < lastSynced * Second + spec.period.value { return Throttled, forced; }
    }
    gate := Open;
  }

  // ---------- Runs of passes ----------

  datatype PassKind = NotRun | Waiting | Failing | Dead | Synced

  /** One pass as the status records it: LastSynced as the pass found it and as it left it. */
  datatype Pass = Pass(began: int, ended: int, forced: bool, kind: PassKind, before: int, after: int)

  /** What the stage guarantees of a pass; an unforced one implies that external sync is enabled. */
  predicate Sound(p: Pass, period: int) {
    && Second <= p.began <= p.ended
    && (!p.forced && p.kind in {Waiting, Synced} ==> IsDue(p.before, period, p.began))
    && match p.kind
       case Synced => !p.forced ==> p.after == UnixSeconds(p.ended)
       case Waiting => p.after == 0
       case _ => p.after == p.before
  }

  /** Passes follow one another, and each finds the status the one before left. */
  ghost predicate IsRun(ps: seq<Pass>, period: int) {
    && (forall i :: 0 <= i < |ps| ==> Sound(ps[i], period) && !ps[i].forced)
    && (forall i :: 0 < i < |ps| ==> ps[i - 1].ended <= ps[i].began && ps[i].before == ps[i - 1].after)
  }

  /** What a pass after a sync that ended at `e` finds in the status. */
  predicate Since(p: Pass, e: int, period: int) {
    && e <= p.began
    && if p.before == 0 then p.began > e + period - Second else p.before * Second > e - Second
  }

  lemma FloorsToSecond(t: int)
    requires t >= Second
    ensures UnixSeconds(t) >= 1 && t - Second < UnixSeconds(t) * Second <= t
  {
  }

  lemma SinceOn(p: Pass, next: Pass, e: int, period: int)
    requires Sound(p, period) && Sound(next, period) && !p.forced && Since(p, e, period)
    requires p.ended <= next.began && next.before == p.after
    ensures Since(next, e, period)
  {
    FloorsToSecond(p.ended);
  }

  lemma {:induction false} SinceFirst(ps: seq<Pass>, period: int, i: nat, j: nat)
    requires IsRun(ps, period) && i < j < |ps| && ps[i].kind == Synced
    ensures Since(ps[j], ps[i].ended, period)
  {
    if j == i + 1 {
      FloorsToSecond(ps[i].ended);
    } else {
      SinceFirst(ps, period, i, j - 1);
      SinceOn(ps[j - 1], ps[j], ps[i].ended, period);
    }
  }

  /** However the passes between them went, two syncs end more than the period less a second apart. */
  lemma RateBound(ps: seq<Pass>, period: int, i: nat, j: nat)
    requires IsRun(ps, period) && i < j < |ps| && ps[i].kind == Synced && ps[j].kind == Synced
    ensures ps[j].ended - ps[i].ended > period - Second
  {
    SinceFirst(ps, period, i, j);
    assert IsDue(ps[j].before, period, ps[j].began);
  }

  /** The second cannot be saved: LastSynced loses the fraction. */
  lemma RateBoundIsTight(period: int)
    requires period > 0
    ensures
      var first := Pass(2 * Second - 1, 2 * Second - 1, false, Synced, 0, 1);
      var second := Pass(Second + period, Second + period, false, Synced, 1, UnixSeconds(Second + period));
      period >= Second ==> IsRun([first, second], period) && second.ended - first.ended == period - Second + 1
  {
    FloorsToSecond(2 * Second - 1);
  }

  /** The status a pass finds is the one before's or, where that was not persisted, still the older one. */
  ghost predicate IsLossyRun(ps: seq<Pass>, period: int) {
    && (forall i :: 0 <= i < |ps| ==> Sound(ps[i], period))
    && (forall i :: 0 < i < |ps| ==> ps[i - 1].ended <= ps[i].began && ps[i].before in {ps[i - 1].after, ps[i - 1].before})
  }

  /** A sync whose status is not persisted is repeated at once, so the bound needs the persisted status. */
  lemma LostStatusBreaksBound(e: int, period: int)
    requires e >= Second && period >= Second
    ensures
      var lost := Pass(e, e, false, Synced, 0, UnixSeconds(e));
      IsLossyRun([lost, lost], period) && !IsRun([lost, lost], period) && !(lost.ended - lost.ended > period - Second)
  {
    FloorsToSecond(e);
    var lost := Pass(e, e, false, Synced, 0, UnixSeconds(e));
    var ps := [lost, lost];
    assert ps[1].before != ps[0].after;
  }

  /** A sync that is due stays due through every pass that does not complete one, persisted or not. */
  lemma {:induction false} StaysDue(ps: seq<Pass>, period: int, i: nat, j: nat)
    requires IsLossyRun(ps, period) && i <= j < |ps| && IsDue(ps[i].before, period, ps[i].began)
    requires forall k :: i <= k < j ==> ps[k].kind != Synced
    ensures IsDue(ps[j].before, period, ps[j].began)
  {
    if i < j {
      StaysDue(ps, period, i, j - 1);
    }
  }

  /** Every pass found the status the one before left, and none was forced. */
  ghost predicate Persisted(ps: seq<Pass>) {
    && (forall i :: 0 <= i < |ps| ==> !ps[i].forced)
    && (forall i :: 0 < i < |ps| ==> ps[i].before == ps[i - 1].after)
  }

  ghost predicate Spaced(ps: seq<Pass>, period: int) {
    forall i, j :: 0 <= i < j < |ps| && ps[i].kind == Synced && ps[j].kind == Synced ==> ps[j].ended - ps[i].ended > period - Second
  }

  lemma PersistedIsSpaced(ps: seq<Pass>, period: int)
    requires IsLossyRun(ps, period) && Persisted(ps)
    ensures IsRun(ps, period) && Spaced(ps, period)
  {
    forall i, j | 0 <= i < j < |ps| && ps[i].kind == Synced && ps[j].kind == Synced
      ensures ps[j].ended - ps[i].ended > period - Second
    {
      RateBound(ps, period, i, j);
    }
  }

  lemma LossyRunOn(ps: seq<Pass>, p: Pass, period: int)
    requires IsLossyRun(ps, period) && Sound(p, period)
    requires ps != [] ==> ps[|ps| - 1].ended <= p.began && p.before in {ps[|ps| - 1].after, ps[|ps| - 1].before}
    ensures IsLossyRun(ps + [p], period)
  {
  }
}
