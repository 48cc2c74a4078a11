/**
 From the configuration secrets to the indexes a sync works with: which secrets are read, and how the
 observatoria of each index are resolved and their tokens looked after.
 */
module Resolution {
  import opened Kube
  import opened Observability
  import opened SyncEngine
  import opened TokenExpiry
  import opened Observatoria

  // ---------- Reading the indexes ----------

  function SecretNames(order: seq<Key>): set<string> { set k | k in order :: k.name }

  /** Of secrets with the same name the first one counts. */
  function FirstKeys(order: seq<Key>): seq<Key> {
    if order == [] then []
    else
      var init, last := order[..|order| - 1], order[|order| - 1];
      if last.name in SecretNames(init) then FirstKeys(init) else FirstKeys(init) + [last]
  }

  lemma NamesOn(init: seq<Key>, last: Key)
    ensures SecretNames(init + [last]) == SecretNames(init) + {last.name}
  {
  }

  lemma {:induction false} FirstKeysNames(order: seq<Key>)
    ensures SecretNames(FirstKeys(order)) == SecretNames(order)
    ensures forall k :: k in FirstKeys(order) ==> k in order
  {
    if order != [] {
      var init, last := order[..|order| - 1], order[|order| - 1];
      assert order == init + [last];
      FirstKeysNames(init);
      NamesOn(init, last);
      NamesOn(FirstKeys(init), last);
    }
  }

  lemma {:induction false} FirstCounts(order: seq<Key>, p: nat)
    requires p < |order| && order[p].name !in SecretNames(order[..p])
    ensures order[p] in FirstKeys(order)
  {
    var n := |order| - 1;
    if p < n {
      assert order[..n][..p] == order[..p];
      FirstCounts(order[..n], p);
    }
  }

  lemma {:induction false} FirstKeysDistinct(order: seq<Key>)
    ensures forall i, j :: 0 <= i < j < |FirstKeys(order)| ==> FirstKeys(order)[i].name != FirstKeys(order)[j].name
  {
    if order != [] {
      var init, last := order[..|order| - 1], order[|order| - 1];
      FirstKeysDistinct(init);
      FirstKeysNames(init);
      forall i | 0 <= i < |FirstKeys(init)| ensures FirstKeys(init)[i].name in SecretNames(init) {
        assert FirstKeys(init)[i] in FirstKeys(init);
      }
    }
  }

  /** Every name once, and under it the first secret that has it. */
  lemma FirstKeysSound(order: seq<Key>)
    ensures SecretNames(FirstKeys(order)) == SecretNames(order)
    ensures forall i, j :: 0 <= i < j < |FirstKeys(order)| ==> FirstKeys(order)[i].name != FirstKeys(order)[j].name
    ensures forall p :: 0 <= p < |order| && order[p].name !in SecretNames(order[..p]) ==> order[p] in FirstKeys(order)
    ensures forall k :: k in FirstKeys(order) ==> k in order
  {
    FirstKeysNames(order);
    FirstKeysDistinct(order);
    forall p | 0 <= p < |order| && order[p].name !in SecretNames(order[..p]) ensures order[p] in FirstKeys(order) {
      FirstCounts(order, p);
    }
  }

  /** These are the index files of the secrets that count, in that order. */
  ghost predicate ReadFrom(order: seq<Key>, items: Store, read: Obj -> Option<Index>, indexes: seq<Index>) {
    && |indexes| == |FirstKeys(order)|
    && forall i :: 0 <= i < |indexes| ==> FirstKeys(order)[i] in items && read(items[FirstKeys(order)[i]]) == Some(indexes[i])
  }

  /** The index files named by the configuration secrets; the error is that one of them cannot be had. */
  method CollectIndexes(order: seq<Key>, items: Store, read: Obj -> Option<Index>) returns (ok: bool, indexes: seq<Index>)
    requires forall i :: 0 <= i < |order| ==> order[i] in items
    ensures ok ==> ReadFrom(order, items, read, indexes)
    ensures !ok ==> exists k :: k in FirstKeys(order) && k in items && read(items[k]).None?
  {
    var seen: set<string> := {};
    ok, indexes := true, [];
    for i := 0 to |order|
      invariant ok && seen == SecretNames(order[..i]) && ReadFrom(order[..i], items, read, indexes)
    {
      ghost var next := order[..i + 1];
      assert next[..i] == order[..i] && next == order[..i] + [order[i]];
      assert SecretNames(next) == SecretNames(order[..i]) + {order[i].name};
      if order[i].name !in seen {
        var index := read(items[order[i]]);
        if index.None? {
          FirstCounts(order, i);
          return false, [];
        }
        seen := seen + {order[i].name};
        indexes := indexes + [index.value];
      }
    }
    assert order[..|order|] == order;
  }

  // ---------- What each phase spares ----------

  /** The kinds that no secret phase and no custom resource of the stack is of. */
  const SyncedKinds := {Deployment, NetworkPolicy, Service, DaemonSet, GrafanaDashboard, PrometheusRule, PodMonitor}

  lemma SparesOn(n: nat, before: seq<Step>, log: seq<Step>, a: Store, b: Store, d: Store, kinds: set<Kind>)
    requires n <= |before| && before <= log
    requires Spares(before, n, a, kinds) && SameKinds(a, b, kinds)
    requires Spares(log, |before|, b, kinds) && SameKinds(b, d, kinds)
    ensures Spares(log, n, a, kinds) && SameKinds(a, d, kinds)
  {
    forall i | n <= i < |log| ensures SameKinds(a, log[i].post.store, kinds) {
      if i < |before| { assert log[i] == before[i]; }
    }
  }

  // ---------- Token secrets ----------

  function ExpectedSecrets(indexes: seq<Index>): set<string> {
    set i, j | 0 <= i < |indexes| && indexes[i].config.Some? && 0 <= j < |indexes[i].config.value.observatoria| ::
      "obs-token-" + indexes[i].config.value.observatoria[j].id
  }

  function SecretVerdict(indexes: seq<Index>): string -> Verdict {
    name => if name in ExpectedSecrets(indexes) then Keep else Drop
  }

  /** The token secrets no index asks for. */
  function StaleTokens(s: Store, cr: Cr, indexes: seq<Index>): set<Key> {
    Droppable(Selected(s, Secret, cr.ns, TokenLabels), SecretVerdict(indexes))
  }

  /** Stale is a token secret of the namespace whose name no index's observatorium gives. */
  lemma StaleIff(s: Store, cr: Cr, indexes: seq<Index>, k: Key)
    ensures k in StaleTokens(s, cr, indexes) <==>
      && k in s && k.kind == Secret && k.ns == cr.ns
      && "managed-by" in s[k].labels && s[k].labels["managed-by"] == "observability-operator"
      && "purpose" in s[k].labels && s[k].labels["purpose"] == "observatorium-token-secret"
      && forall i, j :: 0 <= i < |indexes| && indexes[i].config.Some? && 0 <= j < |indexes[i].config.value.observatoria| ==>
           k.name != "obs-token-" + indexes[i].config.value.observatoria[j].id
  {
    if k in s { assert Matches(s[k], TokenLabels) <==> forall l :: l in {"managed-by", "purpose"} ==> l in s[k].labels && s[k].labels[l] == TokenLabels[l]; }
  }

  lemma TrimmedSecretsSpare(a: Store, b: Store, droppable: set<Key>)
    requires Trimmed(a, b, droppable) && forall k :: k in droppable ==> k.kind == Secret
    ensures SameKinds(a, b, SyncedKinds)
  {
  }

  /** A failing List is not noticed: it reads as an empty one. */
  method DeleteUnrequestedCredentialSecrets(c: Cluster, cr: Cr, indexes: seq<Index>) returns (ok: bool)
    modifies c
    ensures old(c.log) <= c.log
    ensures Spares(c.log, |old(c.log)|, old(c.store), SyncedKinds) && SameKinds(old(c.store), c.store, SyncedKinds)
    ensures SameOutside(old(c.store), c.store, StaleTokens(old(c.store), cr, indexes)) && Submap(c.store, old(c.store))
    ensures c.Reliable() ==> ok && c.store == old(c.store) - StaleTokens(old(c.store), cr, indexes)
  {
    var listing := c.List(Secret, cr.ns, TokenLabels);
    if listing.ListFailed? { return true; }
    var out := DeleteListed(c, listing.order, listing.items, SecretVerdict(indexes));
    ok := out.Completed?;
    ghost var drop := Droppable(listing.items, SecretVerdict(indexes));
    TrimmedSecretsSpare(old(c.store), c.store, drop);
    forall i | |old(c.log)| <= i < |c.log| ensures SameKinds(old(c.store), c.log[i].post.store, SyncedKinds) {
      if i > |old(c.log)| { TrimmedSecretsSpare(old(c.store), c.log[i].post.store, drop); }
    }
  }

  // ---------- Observatoria ----------

  function ObservatoriaOf(index: Index): seq<Observatorium> {
    if index.config.None? then [] else index.config.value.observatoria
  }

  function WithObservatoria(index: Index, list: seq<Observatorium>): Index
    requires index.config.Some?
  {
    index.(config := Some(index.config.value.(observatoria := list)))
  }

  /** The secrets that resolving may delete or write. */
  function TokenArea(s: Store, cr: Cr, indexes: seq<Index>): set<Key> {
    StaleTokens(s, cr, indexes) + AllTokenKeys(cr, indexes)
  }

  function AllTokenKeys(cr: Cr, indexes: seq<Index>): set<Key> {
    set i, j | 0 <= i < |indexes| && 0 <= j < |ObservatoriaOf(indexes[i])| :: TokenKey(cr, ObservatoriaOf(indexes[i])[j].id)
  }

  /** None of these observatoria takes its settings from a secret of the area. */
  ghost predicate ApartFrom(area: set<Key>, cr: Cr, os: seq<Observatorium>) {
    forall j :: 0 <= j < |os| ==> area !! Sources(cr, os[j])
  }

  ghost predicate AllAssigned(from: Store, cr: Cr, os: seq<Observatorium>, list: seq<Observatorium>, depth: nat)
    requires |os| == |list|
  {
    forall j :: 0 <= j < |os| ==> Resolved(from, cr, os[j], depth) == Assigned(list[j])
  }

  /** The list was resolved from the secrets of `from`, or as far as that got it came back with what it had fetched. */
  ghost predicate Settles(from: Store, area: set<Key>, cr: Cr, depth: nat, os: seq<Observatorium>, list: seq<Observatorium>) {
    && AllRespected(os, list)
    && (ApartFrom(area, cr, os) ==>
         cr.ObservatoriumDisabled() || AllAssigned(from, cr, os, list, depth) || exists p :: list == Left(from, cr, os, depth, p))
  }

  /** The same index but for its observatoria, and those settled from the secrets of `from`. */
  ghost predicate Follows(from: Store, area: set<Key>, cr: Cr, depth: nat, index: Index, resolved: Index) {
    if index.config.None? then resolved == index
    else
      && resolved.config.Some? && resolved == WithObservatoria(index, ObservatoriaOf(resolved))
      && Settles(from, area, cr, depth, ObservatoriaOf(index), ObservatoriaOf(resolved))
  }

  ghost predicate AllFollow(from: Store, cr: Cr, depth: nat, indexes: seq<Index>, resolved: seq<Index>) {
    |resolved| == |indexes| && FollowSoFar(from, cr, depth, indexes, resolved)
  }

  /** An index as resolving it from the secrets of `s` leaves it, whether that succeeds or fails. */
  function Expected(s: Store, cr: Cr, depth: nat, index: Index): Index {
    if index.config.None? then index else WithObservatoria(index, Settled(s, cr, index.config.value.observatoria, depth))
  }

  function AllExpected(s: Store, cr: Cr, depth: nat, indexes: seq<Index>): (r: seq<Index>)
    ensures |r| == |indexes| && forall i :: 0 <= i < |r| ==> r[i] == Expected(s, cr, depth, indexes[i])
  {
    seq(|indexes|, i requires 0 <= i < |indexes| => Expected(s, cr, depth, indexes[i]))
  }

  /** The tokens of index `i` are its own: its ids are distinct, and no index before it has one of them. */
  ghost predicate OwnTokens(indexes: seq<Index>, i: nat)
    requires i < |indexes|
  {
    && DistinctObservatoria(ObservatoriaOf(indexes[i]))
    && (forall m, j, l :: 0 <= m < i && 0 <= j < |ObservatoriaOf(indexes[i])| && 0 <= l < |ObservatoriaOf(indexes[m])|
         ==> ObservatoriaOf(indexes[i])[j].id != ObservatoriaOf(indexes[m])[l].id)
  }

  /** The store alone decides this index: its secrets are apart from the token secrets, and its tokens are its own. */
  ghost predicate Settleable(s: Store, cr: Cr, indexes: seq<Index>, i: nat)
    requires i < |indexes|
  {
    cr.ObservatoriumDisabled() || (OwnTokens(indexes, i) && ApartFrom(TokenArea(s, cr, indexes), cr, ObservatoriaOf(indexes[i])))
  }

  /** The recursion that never ends is reached. */
  predicate Crashes(s: Store, cr: Cr, depth: nat, index: Index) {
    !cr.ObservatoriumDisabled() && ListEnds(s, cr, ObservatoriaOf(index), depth).Crashed?
  }

  /** What the secrets must be like for the indexes to be gone through: each decided by the store, and none that crashes. */
  ghost predicate Resolvable(s: Store, cr: Cr, depth: nat, indexes: seq<Index>) {
    forall i :: 0 <= i < |indexes| ==> Settleable(s, cr, indexes, i) && !Crashes(s, cr, depth, indexes[i])
  }

  /** The tokens of these observatoria are still as they were. */
  ghost predicate TokensAsIn(a: Store, b: Store, cr: Cr, os: seq<Observatorium>) {
    forall j :: 0 <= j < |os| ==>
      Lookup(a, TokenKey(cr, os[j].id)) == Lookup(b, TokenKey(cr, os[j].id))
  }

  lemma SecretsSpare(a: Store, b: Store, keys: set<Key>)
    requires SameOutside(a, b, keys) && forall k :: k in keys ==> k.kind == Secret
    ensures SameKinds(a, b, SyncedKinds)
  {
    forall k: Key | k.kind in SyncedKinds ensures (k in a <==> k in b) && (k in a && k in b ==> a[k] == b[k]) {
      assert Lookup(a, k) == Lookup(b, k);
    }
  }

  lemma StepsSpare(log: seq<Step>, n: nat, a: Store, keys: set<Key>)
    requires AllSameOutside(log, n, a, keys) && forall k :: k in keys ==> k.kind == Secret
    ensures Spares(log, n, a, SyncedKinds)
  {
    forall i | n <= i < |log| ensures SameKinds(a, log[i].post.store, SyncedKinds) {
      SecretsSpare(a, log[i].post.store, keys);
    }
  }

  /** Away from the area, resolving from the store of the moment is resolving from the one at the start. */
  lemma ResolvedAlike(from: Store, now: Store, area: set<Key>, cr: Cr, os: seq<Observatorium>, depth: nat)
    requires SameOutside(from, now, area) && ApartFrom(area, cr, os)
    ensures SameResolutions(from, now, cr, os, depth)
  {
    forall j | 0 <= j < |os| ensures Resolved(from, cr, os[j], depth) == Resolved(now, cr, os[j], depth) {
      ResolvedFromSources(from, now, area, cr, os[j], depth);
    }
  }

  lemma ApartSelf(area: set<Key>, cr: Cr, os: seq<Observatorium>)
    requires ApartFrom(area, cr, os) && TokenKeys(cr, os) <= area
    ensures Apart(cr, os)
  {
  }

  /** One index; an error is only logged. */
  method ResolveIndex(c: Cluster, cr: Cr, dex: Dex, depth: nat, now: int, index: Index, ghost from: Store, ghost area: set<Key>) returns (crashed: bool, resolved: Index)
    requires SameOutside(from, c.store, area) && TokenKeys(cr, ObservatoriaOf(index)) <= area
    modifies c
    ensures old(c.log) <= c.log
    ensures Spares(c.log, |old(c.log)|, old(c.store), SyncedKinds) && SameKinds(old(c.store), c.store, SyncedKinds)
    ensures SameOutside(old(c.store), c.store, TokenKeys(cr, ObservatoriaOf(index)))
    ensures Adds(old(c.store), c.store, TokenMark(cr.ns))
    ensures Follows(from, area, cr, depth, index, resolved)
    ensures c.Reliable() && CleanIndex(from, old(c.store), area, cr, index) ==>
      resolved == Expected(from, cr, depth, index) && crashed == Crashes(from, cr, depth, index)
  {
    resolved, crashed := index, false;
    if index.config.Some? {
      var os := index.config.value.observatoria;
      var out, list, passed := ReconcileObservatoria(c, cr, os, dex, now, depth);
      crashed := out.Crashed?;
      SecretsSpare(old(c.store), c.store, TokenKeys(cr, os));
      StepsSpare(c.log, |old(c.log)|, old(c.store), TokenKeys(cr, os));
      resolved := WithObservatoria(index, list);
      if ApartFrom(area, cr, os) {
        ApartSelf(area, cr, os);
        ResolvedAlike(from, old(c.store), area, cr, os, depth);
        LeftAlike(from, old(c.store), cr, os, depth, passed);
        if TokensAsIn(from, old(c.store), cr, os) { SettledAlike(from, old(c.store), cr, os, depth); }
      }
    }
  }

  /** The store decides this index, as the cluster is when its turn comes. */
  ghost predicate CleanIndex(from: Store, now: Store, area: set<Key>, cr: Cr, index: Index) {
    var os := ObservatoriaOf(index);
    cr.ObservatoriumDisabled() || (ApartFrom(area, cr, os) && DistinctObservatoria(os) && TokensAsIn(from, now, cr, os))
  }

  ghost predicate SameResolutions(a: Store, b: Store, cr: Cr, os: seq<Observatorium>, depth: nat) {
    forall j :: 0 <= j < |os| ==> Resolved(a, cr, os[j], depth) == Resolved(b, cr, os[j], depth)
  }

  lemma LeftAlike(a: Store, b: Store, cr: Cr, os: seq<Observatorium>, depth: nat, p: nat)
    requires SameResolutions(a, b, cr, os, depth)
    ensures Left(a, cr, os, depth, p) == Left(b, cr, os, depth, p)
  {
  }

  /** Same resolutions and same tokens: the same list, however far it gets. */
  lemma SettledAlike(a: Store, b: Store, cr: Cr, os: seq<Observatorium>, depth: nat)
    requires SameResolutions(a, b, cr, os, depth) && TokensAsIn(a, b, cr, os)
    ensures ListEnds(a, cr, os, depth) == ListEnds(b, cr, os, depth) && Settled(a, cr, os, depth) == Settled(b, cr, os, depth)
  {
    forall j | 0 <= j < |os| ensures TurnEnds(a, cr, os[j], depth) == TurnEnds(b, cr, os[j], depth) {
      assert Lookup(a, TokenKey(cr, os[j].id)) == Lookup(b, TokenKey(cr, os[j].id));
    }
    StopsAt(a, cr, os, depth, StopFrom(b, cr, os, depth, 0));
    LeftAlike(a, b, cr, os, depth, PassedBy(b, cr, os, depth));
  }

  lemma OneMoreIndex(cr: Cr, indexes: seq<Index>, i: nat)
    requires i < |indexes|
    ensures AllTokenKeys(cr, indexes[..i]) + TokenKeys(cr, ObservatoriaOf(indexes[i])) == AllTokenKeys(cr, indexes[..i + 1])
    ensures AllTokenKeys(cr, indexes[..i + 1]) <= AllTokenKeys(cr, indexes)
  {
    assert indexes[..i + 1] == indexes[..i] + [indexes[i]];
    forall k | k in AllTokenKeys(cr, indexes[..i + 1])
      ensures k in AllTokenKeys(cr, indexes[..i]) + TokenKeys(cr, ObservatoriaOf(indexes[i])) && k in AllTokenKeys(cr, indexes)
    {
      var m, j :| 0 <= m < i + 1 && 0 <= j < |ObservatoriaOf(indexes[..i + 1][m])| && TokenKey(cr, ObservatoriaOf(indexes[..i + 1][m])[j].id) == k;
      assert indexes[..i + 1][m] == indexes[m] && (m < i ==> indexes[..i][m] == indexes[m]);
    }
    forall k | k in AllTokenKeys(cr, indexes[..i]) ensures k in AllTokenKeys(cr, indexes[..i + 1]) {
      var m, j :| 0 <= m < i && 0 <= j < |ObservatoriaOf(indexes[..i][m])| && TokenKey(cr, ObservatoriaOf(indexes[..i][m])[j].id) == k;
      assert indexes[..i + 1][m] == indexes[..i][m];
    }
    assert indexes[..i + 1][i] == indexes[i];
  }

  /** When an index's turn comes, nothing has touched its tokens. */
  lemma TurnComes(from: Store, now: Store, cr: Cr, indexes: seq<Index>, i: nat)
    requires i < |indexes| && Settleable(from, cr, indexes, i)
    requires SameOutside(from, now, StaleTokens(from, cr, indexes) + AllTokenKeys(cr, indexes[..i]))
    ensures CleanIndex(from, now, TokenArea(from, cr, indexes), cr, indexes[i])
  {
    if !cr.ObservatoriumDisabled() {
      var os := ObservatoriaOf(indexes[i]);
      forall j | 0 <= j < |os|
        ensures Lookup(from, TokenKey(cr, os[j].id)) == Lookup(now, TokenKey(cr, os[j].id))
      {
        TokenUntouched(from, cr, indexes, i, j);
      }
    }
  }

  lemma TokenUntouched(from: Store, cr: Cr, indexes: seq<Index>, i: nat, j: nat)
    requires i < |indexes| && j < |ObservatoriaOf(indexes[i])| && OwnTokens(indexes, i)
    ensures TokenKey(cr, ObservatoriaOf(indexes[i])[j].id) !in StaleTokens(from, cr, indexes) + AllTokenKeys(cr, indexes[..i])
  {
    var id := ObservatoriaOf(indexes[i])[j].id;
    var key := TokenKey(cr, id);
    assert key.name in ExpectedSecrets(indexes);
    if key in AllTokenKeys(cr, indexes[..i]) {
      var m, l :| 0 <= m < i && 0 <= l < |ObservatoriaOf(indexes[..i][m])| && TokenKey(cr, ObservatoriaOf(indexes[..i][m])[l].id) == key;
      assert indexes[..i][m] == indexes[m];
      TokenKeyInjective(cr, ObservatoriaOf(indexes[m])[l].id, id);
      assert false;
    }
  }

  /**
   The loop over the indexes. Each index that the store decides comes out as expected, whatever becomes of the
   others; and if the store decides them all, the loop gets through unless one of them crashes.
   */
  method ResolveIndexes(c: Cluster, cr: Cr, dex: Dex, depth: nat, now: int, indexes: seq<Index>, ghost from: Store) returns (crashed: bool, resolved: seq<Index>)
    requires SameOutside(from, c.store, StaleTokens(from, cr, indexes))
    modifies c
    ensures old(c.log) <= c.log
    ensures !crashed ==> AllFollow(from, cr, depth, indexes, resolved)
    ensures c.Reliable() && !crashed ==> AsExpected(from, cr, depth, indexes, resolved)
    ensures c.Reliable() && (forall i :: 0 <= i < |indexes| ==> Settleable(from, cr, indexes, i)) ==>
      (crashed <==> !Resolvable(from, cr, depth, indexes))
    ensures Spares(c.log, |old(c.log)|, old(c.store), SyncedKinds) && SameKinds(old(c.store), c.store, SyncedKinds)
    ensures SameOutside(from, c.store, TokenArea(from, cr, indexes))
    ensures Adds(old(c.store), c.store, TokenMark(cr.ns))
  {
    crashed, resolved := false, [];
    ghost var stale := StaleTokens(from, cr, indexes);
    for i := 0 to |indexes|
      invariant old(c.log) <= c.log && !crashed && |resolved| == i && Adds(old(c.store), c.store, TokenMark(cr.ns))
      invariant FollowSoFar(from, cr, depth, indexes, resolved) && (c.Reliable() ==> ExpectedSoFar(from, cr, depth, indexes, resolved))
      invariant Spares(c.log, |old(c.log)|, old(c.store), SyncedKinds) && SameKinds(old(c.store), c.store, SyncedKinds)
      invariant SameOutside(from, c.store, stale + AllTokenKeys(cr, indexes[..i]))
    {
      ghost var before, s := c.log, c.store;
      var r;
      crashed, r := ResolveNth(c, cr, dex, depth, now, indexes, i, from);
      SparesOn(|old(c.log)|, before, c.log, old(c.store), s, c.store, SyncedKinds);
      AddsOn(old(c.store), s, c.store, TokenMark(cr.ns));
      if crashed { break; }
      OneMoreResolved(from, cr, depth, indexes, resolved, r, c.Reliable());
      resolved := resolved + [r];
    }
    if !crashed { assert indexes[..|indexes|] == indexes; }
  }

  ghost predicate FollowSoFar(from: Store, cr: Cr, depth: nat, indexes: seq<Index>, resolved: seq<Index>) {
    && |resolved| <= |indexes|
    && forall j :: 0 <= j < |resolved| ==> Follows(from, TokenArea(from, cr, indexes), cr, depth, indexes[j], resolved[j])
  }

  /** One index, if the store decides it. */
  ghost predicate ExpectedAt(from: Store, cr: Cr, depth: nat, indexes: seq<Index>, j: nat, resolved: Index)
    requires j < |indexes|
  {
    Settleable(from, cr, indexes, j) ==> resolved == Expected(from, cr, depth, indexes[j]) && !Crashes(from, cr, depth, indexes[j])
  }

  ghost predicate ExpectedSoFar(from: Store, cr: Cr, depth: nat, indexes: seq<Index>, resolved: seq<Index>) {
    |resolved| <= |indexes| && forall j :: 0 <= j < |resolved| ==> ExpectedAt(from, cr, depth, indexes, j, resolved[j])
  }

  /** Every index that the store decides is as expected. */
  ghost predicate AsExpected(from: Store, cr: Cr, depth: nat, indexes: seq<Index>, resolved: seq<Index>) {
    |resolved| == |indexes| && ExpectedSoFar(from, cr, depth, indexes, resolved)
  }

  lemma OneMoreResolved(from: Store, cr: Cr, depth: nat, indexes: seq<Index>, resolved: seq<Index>, r: Index, reliable: bool)
    requires |resolved| < |indexes| && FollowSoFar(from, cr, depth, indexes, resolved)
    requires Follows(from, TokenArea(from, cr, indexes), cr, depth, indexes[|resolved|], r)
    requires reliable ==> ExpectedSoFar(from, cr, depth, indexes, resolved) && ExpectedAt(from, cr, depth, indexes, |resolved|, r)
    ensures FollowSoFar(from, cr, depth, indexes, resolved + [r])
    ensures reliable ==> ExpectedSoFar(from, cr, depth, indexes, resolved + [r])
  {
    var area, more := TokenArea(from, cr, indexes), resolved + [r];
    forall j | 0 <= j < |more|
      ensures Follows(from, area, cr, depth, indexes[j], more[j]) && (reliable ==> ExpectedAt(from, cr, depth, indexes, j, more[j]))
    {
      if j < |resolved| { assert more[j] == resolved[j]; }
    }
  }

  lemma ExpectedAll(from: Store, cr: Cr, depth: nat, indexes: seq<Index>, resolved: seq<Index>)
    requires AsExpected(from, cr, depth, indexes, resolved) && Resolvable(from, cr, depth, indexes)
    ensures resolved == AllExpected(from, cr, depth, indexes)
  {
    forall j | 0 <= j < |indexes| ensures resolved[j] == Expected(from, cr, depth, indexes[j]) {
      assert ExpectedAt(from, cr, depth, indexes, j, resolved[j]);
    }
  }

  /** One turn of the loop. */
  method ResolveNth(c: Cluster, cr: Cr, dex: Dex, depth: nat, now: int, indexes: seq<Index>, i: nat, ghost from: Store) returns (crashed: bool, resolved: Index)
    requires i < |indexes| && SameOutside(from, c.store, StaleTokens(from, cr, indexes) + AllTokenKeys(cr, indexes[..i]))
    modifies c
    ensures old(c.log) <= c.log
    ensures Spares(c.log, |old(c.log)|, old(c.store), SyncedKinds) && SameKinds(old(c.store), c.store, SyncedKinds)
    ensures SameOutside(from, c.store, StaleTokens(from, cr, indexes) + AllTokenKeys(cr, indexes[..i + 1]))
    ensures SameOutside(from, c.store, TokenArea(from, cr, indexes))
    ensures Adds(old(c.store), c.store, TokenMark(cr.ns))
    ensures Follows(from, TokenArea(from, cr, indexes), cr, depth, indexes[i], resolved)
    ensures c.Reliable() && !crashed ==> ExpectedAt(from, cr, depth, indexes, i, resolved)
    ensures c.Reliable() && Settleable(from, cr, indexes, i) ==> crashed == Crashes(from, cr, depth, indexes[i])
  {
    OneMoreIndex(cr, indexes, i);
    if Settleable(from, cr, indexes, i) { TurnComes(from, c.store, cr, indexes, i); }
    crashed, resolved := ResolveIndex(c, cr, dex, depth, now, indexes[i], from, TokenArea(from, cr, indexes));
  }
}
