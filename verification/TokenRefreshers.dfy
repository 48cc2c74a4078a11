/**
 Token refreshers: per observatorium and signal type an authentication proxy Deployment, its Service
 and the NetworkPolicy that says who may talk to it.
 */
module TokenRefreshers {
  import opened Kube
  import opened Observability
  import opened SyncEngine

  datatype RefresherType = Metrics | Logs

  const Types := [Metrics, Logs]

  function TypeName(t: RefresherType): string {
    match t
    case Metrics => "metrics"
    case Logs => "logs"
  }

  const RefresherPrefix := "token-refresher-"

  function RefresherName(id: string, t: RefresherType): string {
    RefresherPrefix + TypeName(t) + "-" + id
  }

  predicate IsRefresher(name: string) { RefresherPrefix <= name }

  lemma RefreshersAreNamedSo(id: string, t: RefresherType)
    ensures IsRefresher(RefresherName(id, t))
  {
    assert RefresherName(id, t) == RefresherPrefix + (TypeName(t) + "-" + id);
  }

  const PolicySuffix := "-network-policy"
  const OidcSecretName := "observability-proxy-credentials"

  const ProxyLabels: Labels := map["app.kubernetes.io/component" := "authentication-proxy"]

  datatype ConfigSet = NilSet | SetError | SomeSet(name: string, typ: RefresherType)

  /** `parses` stands for url.Parse: which authentication server URLs it accepts. */
  function ConfigSetFor(parses: string -> bool, t: RefresherType, o: Observatorium): ConfigSet {
    if o.sso.None? then NilSet
    else if !parses(o.sso.value.url) then SetError
    else if t.Metrics? && !o.sso.value.HasMetrics() then NilSet
    else if t.Logs? && !o.sso.value.HasLogs() then NilSet
    else SomeSet(RefresherName(o.id, t), t)
  }

  // ---------- The two shouldExist closures ----------

  /** Both types of one observatorium; None where the closure goes on to the next observatorium. */
  function DeploymentTypes(parses: string -> bool, cfg: Config, o: Observatorium, name: string): Option<Verdict> {
    match ConfigSetFor(parses, Metrics, o)
    case SetError => Some(Drop)
    case NilSet => Some(Panic)
    case SomeSet(metrics, _) =>
      if name == metrics then Some(Keep)
      else if !cfg.PromtailEnabled() then Some(Drop)
      else
        match ConfigSetFor(parses, Logs, o)
        case SetError => Some(Drop)
        case NilSet => Some(Panic)
        case SomeSet(logs, _) => if name == logs then Some(Keep) else None
  }

  function DeploymentObservatoria(parses: string -> bool, cfg: Config, os: seq<Observatorium>, name: string): Option<Verdict> {
    if os == [] then None
    else if !os[0].IsValid() || os[0].sso.None? then Some(Drop)
    else
      var v := DeploymentTypes(parses, cfg, os[0], name);
      if v.Some? then v else DeploymentObservatoria(parses, cfg, os[1..], name)
  }

  function DeploymentIndexes(parses: string -> bool, indexes: seq<Index>, name: string): Verdict {
    if indexes == [] || indexes[0].config.None? then Drop
    else
      var cfg := indexes[0].config.value;
      match DeploymentObservatoria(parses, cfg, cfg.observatoria, name)
      case Some(v) => v
      case None => DeploymentIndexes(parses, indexes[1..], name)
  }

  function DeploymentVerdict(cr: Cr, oauth2: bool, parses: string -> bool, indexes: seq<Index>): string -> Verdict {
    name =>
      if cr.ExternalSyncDisabled() || cr.ObservatoriumDisabled() || oauth2 then Drop
      else DeploymentIndexes(parses, indexes, name)
  }

  function PolicyTypes(parses: string -> bool, cfg: Config, o: Observatorium, name: string): Option<Verdict> {
    match ConfigSetFor(parses, Metrics, o)
    case SetError => Some(Drop)
    case NilSet => Some(Panic)
    case SomeSet(metrics, _) =>
      if name == metrics + PolicySuffix then Some(Keep)
      else if !cfg.PromtailEnabled() then Some(Drop)
      else
        match ConfigSetFor(parses, Logs, o)
        case SetError => Some(Drop)
        case NilSet => Some(Panic)
        case SomeSet(logs, _) => if name == logs + PolicySuffix then Some(Keep) else None
  }

  function PolicyObservatoria(parses: string -> bool, cfg: Config, os: seq<Observatorium>, name: string): Option<Verdict> {
    if os == [] then None
    else if !os[0].IsValid() || os[0].sso.None? then Some(Drop)
    else
      var v := PolicyTypes(parses, cfg, os[0], name);
      if v.Some? then v else PolicyObservatoria(parses, cfg, os[1..], name)
  }

  function PolicyIndexes(parses: string -> bool, indexes: seq<Index>, name: string): Verdict {
    if indexes == [] || indexes[0].config.None? then Drop
    else
      var cfg := indexes[0].config.value;
      match PolicyObservatoria(parses, cfg, cfg.observatoria, name)
      case Some(v) => v
      case None => PolicyIndexes(parses, indexes[1..], name)
  }

  function PolicyVerdict(cr: Cr, oauth2: bool, parses: string -> bool, indexes: seq<Index>): string -> Verdict {
    name =>
      if cr.ExternalSyncDisabled() || cr.ObservatoriumDisabled() || oauth2 then Drop
      else PolicyIndexes(parses, indexes, name)
  }

  lemma SuffixInjective(a: string, b: string, suffix: string)
    ensures a + suffix == b + suffix <==> a == b
  {
    if a + suffix == b + suffix {
      assert |a| == |b|;
      assert a == (a + suffix)[..|a|] == (b + suffix)[..|b|] == b;
    }
  }

  lemma {:induction false} ObservatoriaAgree(parses: string -> bool, cfg: Config, os: seq<Observatorium>, name: string)
    ensures PolicyObservatoria(parses, cfg, os, name + PolicySuffix) == DeploymentObservatoria(parses, cfg, os, name)
  {
    if os != [] {
      SuffixInjective(name, RefresherName(os[0].id, Metrics), PolicySuffix);
      SuffixInjective(name, RefresherName(os[0].id, Logs), PolicySuffix);
      ObservatoriaAgree(parses, cfg, os[1..], name);
    }
  }

  lemma {:induction false} IndexesAgree(parses: string -> bool, indexes: seq<Index>, name: string)
    ensures PolicyIndexes(parses, indexes, name + PolicySuffix) == DeploymentIndexes(parses, indexes, name)
  {
    if indexes != [] && indexes[0].config.Some? {
      var cfg := indexes[0].config.value;
      ObservatoriaAgree(parses, cfg, cfg.observatoria, name);
      IndexesAgree(parses, indexes[1..], name);
    }
  }

  /** The two closures say the same of a deployment and of its policy, crash included. */
  lemma VerdictsAgree(cr: Cr, oauth2: bool, parses: string -> bool, indexes: seq<Index>, name: string)
    ensures PolicyVerdict(cr, oauth2, parses, indexes)(name + PolicySuffix) == DeploymentVerdict(cr, oauth2, parses, indexes)(name)
  {
    IndexesAgree(parses, indexes, name);
  }

  // ---------- Coverage ----------

  function PolicyKey(ns: string, name: string): Key {
    Key(NetworkPolicy, ns, name + PolicySuffix)
  }

  /** The policy's pod selector picks the pods of the deployment called `name`. */
  predicate Guards(policy: Obj, name: string) {
    "podSelector" in policy.data && policy.data["podSelector"] == name
  }

  /** Every authentication proxy, in whatever namespace, has the network policy that guards it. */
  ghost predicate Covered(s: Store) {
    forall k :: k in s && k.kind == Deployment && Matches(s[k], ProxyLabels) ==>
      var p := PolicyKey(k.ns, k.name); p in s && Guards(s[p], k.name)
  }

  ghost predicate CoveredThroughout(log: seq<Step>, n: nat) {
    forall i :: n <= i < |log| ==> Covered(log[i].post.store)
  }

  /** The names of the authentication proxies in a namespace. */
  function Refreshers(s: Store, ns: string): set<string> {
    set k | k in s && k.kind == Deployment && k.ns == ns && Matches(s[k], ProxyLabels) :: k.name
  }

  /** Those that also have their Service. */
  function Served(s: Store, ns: string): set<string> {
    set k | k in s && k.kind == Service && k.ns == ns && k.name in Refreshers(s, ns) :: k.name
  }

  function OidcSecret(cr: Cr): Key { Key(Secret, cr.ns, OidcSecretName) }

  ghost predicate SameAt(a: Store, b: Store, k: Key) {
    (k in a <==> k in b) && (k in a && k in b ==> a[k] == b[k])
  }

  ghost predicate OnlyProxyKindsChanged(a: Store, b: Store) {
    forall k: Key :: k.kind !in {Deployment, NetworkPolicy, Service} ==> SameAt(a, b, k)
  }

  lemma DroppingDeploymentsKeepsCover(s: Store, t: Store, drop: set<Key>)
    requires Covered(s) && Trimmed(s, t, drop)
    requires forall k :: k in drop ==> k.kind == Deployment
    ensures Covered(t)
  {
  }

  lemma DroppingSparePoliciesKeepsCover(s: Store, t: Store, drop: set<Key>)
    requires Covered(s) && Trimmed(s, t, drop)
    requires forall k :: k in drop ==> k.kind == NetworkPolicy
    requires forall k :: k in s && k.kind == Deployment && Matches(s[k], ProxyLabels) ==> PolicyKey(k.ns, k.name) !in drop
    ensures Covered(t)
  {
  }

  // ---------- deleteUnrequestedTokenRefreshers, deleteUnrequestedNetworkPolicies ----------

  /** What the first delete function may remove: labelled deployments the closure does not vouch for. */
  function StaleDeployments(s: Store, cr: Cr, parses: string -> bool, indexes: seq<Index>): set<Key> {
    Droppable(Selected(s, Deployment, cr.OperatorNs(), ProxyLabels), DeploymentVerdict(cr, OidcSecret(cr) in s, parses, indexes))
  }

  function StalePolicies(s: Store, cr: Cr, parses: string -> bool, indexes: seq<Index>): set<Key> {
    Droppable(Selected(s, NetworkPolicy, cr.OperatorNs(), ProxyLabels), PolicyVerdict(cr, OidcSecret(cr) in s, parses, indexes))
  }

  /** Every proxy left in the operator's namespace is one the closure vouches for. */
  ghost predicate AllVouched(s: Store, cr: Cr, parses: string -> bool, indexes: seq<Index>) {
    forall n :: n in Refreshers(s, cr.OperatorNs()) ==> DeploymentVerdict(cr, OidcSecret(cr) in s, parses, indexes)(n) == Keep
  }

  function Vouched(names: set<string>, cr: Cr, oauth2: bool, parses: string -> bool, indexes: seq<Index>): set<string> {
    set n | n in names && DeploymentVerdict(cr, oauth2, parses, indexes)(n) == Keep
  }

  lemma OnlyVouchedRemain(s: Store, t: Store, cr: Cr, parses: string -> bool, indexes: seq<Index>)
    requires t == s - StaleDeployments(s, cr, parses, indexes)
    requires DeploymentsJudged(s, cr, parses, indexes)
    ensures AllVouched(t, cr, parses, indexes)
    ensures Refreshers(t, cr.OperatorNs()) == Vouched(Refreshers(s, cr.OperatorNs()), cr, OidcSecret(cr) in s, parses, indexes)
  {
    var ns := cr.OperatorNs();
    forall n | n in Vouched(Refreshers(s, ns), cr, OidcSecret(cr) in s, parses, indexes) ensures n in Refreshers(t, ns) {
      assert Key(Deployment, ns, n) in t;
    }
    forall n | n in Refreshers(t, ns) ensures n in Vouched(Refreshers(s, ns), cr, OidcSecret(cr) in s, parses, indexes) {
      assert Key(Deployment, ns, n) in Selected(s, Deployment, ns, ProxyLabels);
    }
  }

  /** The closure gets through every listed deployment without a nil dereference. */
  ghost predicate DeploymentsJudged(s: Store, cr: Cr, parses: string -> bool, indexes: seq<Index>) {
    forall k :: k in Selected(s, Deployment, cr.OperatorNs(), ProxyLabels) ==>
      DeploymentVerdict(cr, OidcSecret(cr) in s, parses, indexes)(k.name) != Panic
  }

  ghost predicate PoliciesJudged(s: Store, cr: Cr, parses: string -> bool, indexes: seq<Index>) {
    forall k :: k in Selected(s, NetworkPolicy, cr.OperatorNs(), ProxyLabels) ==>
      PolicyVerdict(cr, OidcSecret(cr) in s, parses, indexes)(k.name) != Panic
  }

  /** List, look for the OAuth2 secret, delete one by one. */
  method DeleteStaleDeployments(c: Cluster, cr: Cr, parses: string -> bool, indexes: seq<Index>) returns (out: Outcome)
    modifies c
    ensures old(c.log) <= c.log
    ensures AllTrimmed(c.log, |old(c.log)|, old(c.store), StaleDeployments(old(c.store), cr, parses, indexes))
    ensures Trimmed(old(c.store), c.store, StaleDeployments(old(c.store), cr, parses, indexes))
    ensures out.Completed? ==>
      && c.store == old(c.store) - StaleDeployments(old(c.store), cr, parses, indexes)
      && DeploymentsJudged(old(c.store), cr, parses, indexes)
    ensures c.Reliable() && DeploymentsJudged(old(c.store), cr, parses, indexes) ==> out.Completed?
  {
    out := Errored;
    var listing := c.List(Deployment, cr.OperatorNs(), ProxyLabels);
    if listing.Listed? {
      var oauth2 := c.Get(OidcSecret(cr));
      if !oauth2.GetFailed? {
        out := DeleteListed(c, listing.order, listing.items, DeploymentVerdict(cr, oauth2.Found?, parses, indexes));
      }
    }
  }

  method DeleteUnrequestedTokenRefreshers(c: Cluster, cr: Cr, parses: string -> bool, indexes: seq<Index>) returns (out: Outcome)
    modifies c
    ensures old(c.log) <= c.log
    ensures Covered(old(c.store)) ==> Covered(c.store) && CoveredThroughout(c.log, |old(c.log)|)
    ensures OnlyProxyKindsChanged(old(c.store), c.store) && Submap(c.store, old(c.store))
    ensures out.Completed? ==>
      && c.store == old(c.store) - StaleDeployments(old(c.store), cr, parses, indexes)
      && AllVouched(c.store, cr, parses, indexes)
      && Refreshers(c.store, cr.OperatorNs())
         == Vouched(Refreshers(old(c.store), cr.OperatorNs()), cr, OidcSecret(cr) in old(c.store), parses, indexes)
    ensures c.Reliable() && DeploymentsJudged(old(c.store), cr, parses, indexes) ==> out.Completed?
  {
    out := DeleteStaleDeployments(c, cr, parses, indexes);
    CoverAfterDeployments(old(c.store), c.log, |old(c.log)|, c.store, cr, parses, indexes);
    if out.Completed? { OnlyVouchedRemain(old(c.store), c.store, cr, parses, indexes); }
  }

  method DeleteUnrequestedNetworkPolicies(c: Cluster, cr: Cr, parses: string -> bool, indexes: seq<Index>) returns (out: Outcome)
    modifies c
    ensures old(c.log) <= c.log
    ensures Covered(old(c.store)) && AllVouched(old(c.store), cr, parses, indexes) ==>
      Covered(c.store) && CoveredThroughout(c.log, |old(c.log)|)
    ensures OnlyProxyKindsChanged(old(c.store), c.store) && Submap(c.store, old(c.store))
    ensures Refreshers(c.store, cr.OperatorNs()) == Refreshers(old(c.store), cr.OperatorNs())
    ensures out.Completed? ==> c.store == old(c.store) - StalePolicies(old(c.store), cr, parses, indexes)
    ensures c.Reliable() && PoliciesJudged(old(c.store), cr, parses, indexes) ==> out.Completed?
  {
    out := DeleteStalePolicies(c, cr, parses, indexes);
    CoverAfterPolicies(old(c.store), c.log, |old(c.log)|, c.store, cr, parses, indexes);
    PoliciesOnly(old(c.store), c.store, cr, parses, indexes);
  }

  method DeleteStalePolicies(c: Cluster, cr: Cr, parses: string -> bool, indexes: seq<Index>) returns (out: Outcome)
    modifies c
    ensures old(c.log) <= c.log
    ensures AllTrimmed(c.log, |old(c.log)|, old(c.store), StalePolicies(old(c.store), cr, parses, indexes))
    ensures Trimmed(old(c.store), c.store, StalePolicies(old(c.store), cr, parses, indexes))
    ensures out.Completed? ==> c.store == old(c.store) - StalePolicies(old(c.store), cr, parses, indexes)
    ensures c.Reliable() && PoliciesJudged(old(c.store), cr, parses, indexes) ==> out.Completed?
  {
    out := Errored;
    var listing := c.List(NetworkPolicy, cr.OperatorNs(), ProxyLabels);
    if listing.Listed? {
      var oauth2 := c.Get(OidcSecret(cr));
      if !oauth2.GetFailed? {
        out := DeleteListed(c, listing.order, listing.items, PolicyVerdict(cr, oauth2.Found?, parses, indexes));
      }
    }
  }

  lemma PoliciesOnly(s: Store, t: Store, cr: Cr, parses: string -> bool, indexes: seq<Index>)
    requires Trimmed(s, t, StalePolicies(s, cr, parses, indexes))
    ensures OnlyProxyKindsChanged(s, t) && Refreshers(t, cr.OperatorNs()) == Refreshers(s, cr.OperatorNs())
  {
  }

  /** Once the stale deployments are gone, no policy that is still needed counts as stale. */
  lemma VouchedPoliciesStay(s: Store, cr: Cr, parses: string -> bool, indexes: seq<Index>)
    requires AllVouched(s, cr, parses, indexes)
    ensures forall k :: k in s && k.kind == Deployment && Matches(s[k], ProxyLabels) ==>
      PolicyKey(k.ns, k.name) !in StalePolicies(s, cr, parses, indexes)
  {
    forall k | k in s && k.kind == Deployment && Matches(s[k], ProxyLabels)
      ensures PolicyKey(k.ns, k.name) !in StalePolicies(s, cr, parses, indexes)
    {
      if k.ns == cr.OperatorNs() {
        assert k.name in Refreshers(s, k.ns);
        VerdictsAgree(cr, OidcSecret(cr) in s, parses, indexes, k.name);
      }
    }
  }

  lemma CoverAfterDeployments(s: Store, log: seq<Step>, n: nat, t: Store, cr: Cr, parses: string -> bool, indexes: seq<Index>)
    requires AllTrimmed(log, n, s, StaleDeployments(s, cr, parses, indexes))
    requires Trimmed(s, t, StaleDeployments(s, cr, parses, indexes))
    ensures Covered(s) ==> Covered(t) && CoveredThroughout(log, n)
  {
    if Covered(s) {
      DroppingDeploymentsKeepsCover(s, t, StaleDeployments(s, cr, parses, indexes));
      forall i | n <= i < |log| ensures Covered(log[i].post.store) {
        DroppingDeploymentsKeepsCover(s, log[i].post.store, StaleDeployments(s, cr, parses, indexes));
      }
    }
  }

  lemma CoverAfterPolicies(s: Store, log: seq<Step>, n: nat, t: Store, cr: Cr, parses: string -> bool, indexes: seq<Index>)
    requires AllTrimmed(log, n, s, StalePolicies(s, cr, parses, indexes))
    requires Trimmed(s, t, StalePolicies(s, cr, parses, indexes))
    ensures Covered(s) && AllVouched(s, cr, parses, indexes) ==> Covered(t) && CoveredThroughout(log, n)
  {
    if Covered(s) && AllVouched(s, cr, parses, indexes) {
      VouchedPoliciesStay(s, cr, parses, indexes);
      DroppingSparePoliciesKeepsCover(s, t, StalePolicies(s, cr, parses, indexes));
      forall i | n <= i < |log| ensures Covered(log[i].post.store) {
        DroppingSparePoliciesKeepsCover(s, log[i].post.store, StalePolicies(s, cr, parses, indexes));
      }
    }
  }

  // ---------- reconcileTokenRefresher ----------

  function PolicyObj(name: string): Obj -> Obj {
    (o: Obj) => o.(labels := ProxyLabels, data := map["podSelector" := name])
  }

  function DeploymentObj(name: string): Obj -> Obj {
    (o: Obj) => o.(labels := ProxyLabels["app.kubernetes.io/name" := name])
  }

  /** What reconcileTokenRefresherFor deploys for one observatorium, OAuth2 secret absent. */
  function CreatedForType(parses: string -> bool, o: Observatorium, logsDisabled: bool, t: RefresherType): set<string> {
    if t.Logs? && logsDisabled then {}
    else match ConfigSetFor(parses, t, o)
      case SomeSet(name, _) => {name}
      case _ => {}
  }

  function CreatedFor(parses: string -> bool, o: Observatorium, logsDisabled: bool): set<string> {
    CreatedForType(parses, o, logsDisabled, Metrics) + CreatedForType(parses, o, logsDisabled, Logs)
  }

  function CreatedForAll(parses: string -> bool, os: seq<Observatorium>, logsDisabled: bool): set<string> {
    if os == [] then {}
    else
      var o := os[|os| - 1];
      CreatedForAll(parses, os[..|os| - 1], logsDisabled)
      + if o.authType == AuthTypeRedhat then CreatedFor(parses, o, logsDisabled) else {}
  }

  function Created(parses: string -> bool, indexes: seq<Index>): set<string> {
    if indexes == [] then {}
    else
      var config := indexes[|indexes| - 1].config;
      Created(parses, indexes[..|indexes| - 1])
      + if config.Some? then CreatedForAll(parses, config.value.observatoria, !config.value.PromtailEnabled()) else {}
  }

  /** Does reconcileTokenRefresherFor accept this observatorium? */
  predicate Deployable(parses: string -> bool, o: Observatorium, oauth2: bool) {
    o.IsValid() && (oauth2 || o.sso.None? || parses(o.sso.value.url))
  }

  /** What a sync of the proxies writes: labelled deployments and policies of one namespace, and refresher services there. */
  function ProxyMark(ns: string): (Key, Obj) -> bool {
    (k: Key, o: Obj) => k.ns == ns && ((k.kind == Service && IsRefresher(k.name)) || (k.kind in ProxyKinds && Matches(o, ProxyLabels)))
  }

  /** What every step of the create phase keeps to. */
  ghost predicate Grew(a: Store, b: Store, ns: string, atMost: set<string>) {
    && OnlyProxyKindsChanged(a, b)
    && Refreshers(a, ns) <= Refreshers(b, ns) <= Refreshers(a, ns) + atMost
    && (forall k :: k in a && k.kind == Service ==> k in b)
    && (Covered(a) ==> Covered(b))
    && Adds(a, b, ProxyMark(ns))
  }

  ghost predicate AllGrew(log: seq<Step>, n: nat, a: Store, ns: string, atMost: set<string>) {
    forall i :: n <= i < |log| ==> Grew(a, log[i].post.store, ns, atMost)
  }

  lemma GrewServes(a: Store, b: Store, ns: string, atMost: set<string>)
    requires Grew(a, b, ns, atMost)
    ensures Served(a, ns) <= Served(b, ns)
  {
  }

  lemma GrewTransitive(a: Store, b: Store, d: Store, ns: string, atMost: set<string>)
    requires Grew(a, b, ns, atMost) && Grew(b, d, ns, atMost)
    ensures Grew(a, d, ns, atMost)
  {
    AddsOn(a, b, d, ProxyMark(ns));
  }

  /** Two stretches of the create phase make one. */
  lemma GrewOn(before: seq<Step>, log: seq<Step>, n: nat, a: Store, b: Store, d: Store, ns: string, part: set<string>, all: set<string>)
    requires before <= log && n <= |before| && part <= all
    requires AllGrew(before, n, a, ns, all) && Grew(a, b, ns, all)
    requires AllGrew(log, |before|, b, ns, part) && Grew(b, d, ns, part)
    ensures AllGrew(log, n, a, ns, all) && Grew(a, d, ns, all)
  {
    forall i | n <= i < |log| ensures Grew(a, log[i].post.store, ns, all) {
      if i < |before| {
        assert log[i] == before[i];
      } else {
        GrewTransitive(a, b, log[i].post.store, ns, all);
      }
    }
    GrewTransitive(a, b, d, ns, all);
  }

  lemma PutService(s: Store, ns: string, name: string, x: Obj)
    requires IsRefresher(name)
    ensures Grew(s, s[Key(Service, ns, name) := x], ns, {})
  {
    var t := s[Key(Service, ns, name) := x];
    assert Refreshers(s, ns) == Refreshers(t, ns);
  }

  lemma PutPolicy(s: Store, ns: string, name: string)
    ensures
      var p := PolicyKey(ns, name);
      var t := s[p := Mutated(s, p, PolicyObj(name))];
      Grew(s, t, ns, {}) && Guards(t[p], name)
  {
    var p := PolicyKey(ns, name);
    var t := s[p := Mutated(s, p, PolicyObj(name))];
    assert Refreshers(s, ns) == Refreshers(t, ns);
    forall other: string ensures PolicyKey(ns, other) == p ==> other == name {
      SuffixInjective(other, name, PolicySuffix);
    }
  }

  lemma PutDeployment(s: Store, ns: string, name: string)
    requires PolicyKey(ns, name) in s && Guards(s[PolicyKey(ns, name)], name)
    ensures
      var d := Key(Deployment, ns, name);
      var t := s[d := Mutated(s, d, DeploymentObj(name))];
      Grew(s, t, ns, {name}) && name in Refreshers(t, ns)
  {
    var d := Key(Deployment, ns, name);
    var t := s[d := Mutated(s, d, DeploymentObj(name))];
    assert Matches(t[d], ProxyLabels);
    assert Refreshers(t, ns) == Refreshers(s, ns) + {name};
  }

  method CreateDeploymentFor(c: Cluster, cr: Cr, name: string) returns (ok: bool)
    modifies c
    ensures old(c.log) <= c.log
    ensures AllGrew(c.log, |old(c.log)|, old(c.store), cr.OperatorNs(), {name})
    ensures Grew(old(c.store), c.store, cr.OperatorNs(), {name})
    ensures ok ==> name in Refreshers(c.store, cr.OperatorNs())
    ensures c.Reliable() ==> ok
  {
    var ns := cr.OperatorNs();
    ok := CreatePolicy(c, ns, name);
    if ok {
      ghost var guarded, before := c.store, c.log;
      ok := CreateDeployment(c, ns, name);
      GrewOn(before, c.log, |old(c.log)|, old(c.store), guarded, c.store, ns, {name}, {name});
    }
  }

  method CreatePolicy(c: Cluster, ns: string, name: string) returns (ok: bool)
    modifies c
    ensures old(c.log) <= c.log
    ensures AllGrew(c.log, |old(c.log)|, old(c.store), ns, {name}) && Grew(old(c.store), c.store, ns, {name})
    ensures ok ==> PolicyKey(ns, name) in c.store && Guards(c.store[PolicyKey(ns, name)], name)
    ensures c.Reliable() ==> ok
  {
    PutPolicy(c.store, ns, name);
    ok := c.CreateOrUpdate(PolicyKey(ns, name), PolicyObj(name));
  }

  method CreateDeployment(c: Cluster, ns: string, name: string) returns (ok: bool)
    requires PolicyKey(ns, name) in c.store && Guards(c.store[PolicyKey(ns, name)], name)
    modifies c
    ensures old(c.log) <= c.log
    ensures AllGrew(c.log, |old(c.log)|, old(c.store), ns, {name}) && Grew(old(c.store), c.store, ns, {name})
    ensures ok ==> name in Refreshers(c.store, ns)
    ensures c.Reliable() ==> ok
  {
    PutDeployment(c.store, ns, name);
    ok := c.CreateOrUpdate(Key(Deployment, ns, name), DeploymentObj(name));
  }

  method ReconcileTokenRefresherFor(c: Cluster, cr: Cr, parses: string -> bool, o: Observatorium, logsDisabled: bool) returns (ok: bool)
    modifies c
    ensures old(c.log) <= c.log
    ensures AllGrew(c.log, |old(c.log)|, old(c.store), cr.OperatorNs(), CreatedFor(parses, o, logsDisabled))
    ensures Grew(old(c.store), c.store, cr.OperatorNs(), CreatedFor(parses, o, logsDisabled))
    ensures OidcSecret(cr) in old(c.store) ==> c.store == old(c.store)
    ensures ok && OidcSecret(cr) !in old(c.store) ==> CreatedFor(parses, o, logsDisabled) <= Served(c.store, cr.OperatorNs())
    ensures ok ==> Deployable(parses, o, OidcSecret(cr) in old(c.store))
    ensures c.Reliable() ==> (ok <==> Deployable(parses, o, OidcSecret(cr) in old(c.store)))
  {
    if !o.IsValid() { return false; }
    var oauth2 := c.Get(OidcSecret(cr));
    if oauth2.GetFailed? { return false; }
    if oauth2.Found? { return true; }
    var ns := cr.OperatorNs();
    ghost var all := CreatedFor(parses, o, logsDisabled);
    for i := 0 to |Types|
      invariant old(c.log) <= c.log
      invariant AllGrew(c.log, |old(c.log)|, old(c.store), ns, all)
      invariant Grew(old(c.store), c.store, ns, all)
      invariant forall j :: 0 <= j < i ==> CreatedForType(parses, o, logsDisabled, Types[j]) <= Served(c.store, ns)
      invariant i > 0 ==> Deployable(parses, o, false)
    {
      var t := Types[i];
      if t.Logs? && logsDisabled { continue; }
      match ConfigSetFor(parses, t, o) {
        case SetError => return false;
        case NilSet => continue;
        case SomeSet(name, _) =>
          assert CreatedForType(parses, o, logsDisabled, t) == {name};
          RefreshersAreNamedSo(o.id, t);
          var made := CreateRefresher(c, cr, name, old(c.store), |old(c.log)|, all);
          if !made { return false; }
      }
    }
    assert Types[0] == Metrics && Types[1] == Logs;
    return true;
  }

  /** createServiceFor then createDeploymentFor, as part of a create phase that began at `start`. */
  method CreateRefresher(c: Cluster, cr: Cr, name: string, ghost start: Store, ghost n: nat, ghost all: set<string>) returns (ok: bool)
    requires n <= |c.log| && name in all && IsRefresher(name)
    requires AllGrew(c.log, n, start, cr.OperatorNs(), all) && Grew(start, c.store, cr.OperatorNs(), all)
    modifies c
    ensures old(c.log) <= c.log
    ensures AllGrew(c.log, n, start, cr.OperatorNs(), all) && Grew(start, c.store, cr.OperatorNs(), all)
    ensures Served(old(c.store), cr.OperatorNs()) <= Served(c.store, cr.OperatorNs())
    ensures ok ==> name in Served(c.store, cr.OperatorNs())
    ensures c.Reliable() ==> ok
  {
    var ns := cr.OperatorNs();
    ghost var a, before := c.store, c.log;
    PutService(a, ns, name, Mutated(a, Key(Service, ns, name), (x: Obj) => x));
    ok := c.CreateOrUpdate(Key(Service, ns, name), (x: Obj) => x);
    GrewOn(before, c.log, n, start, a, c.store, ns, {}, all);
    GrewServes(a, c.store, ns, {});
    if ok {
      ghost var b, serviced := c.store, c.log;
      ok := CreateDeploymentFor(c, cr, name);
      GrewOn(serviced, c.log, n, start, b, c.store, ns, {name}, all);
      GrewServes(b, c.store, ns, {name});
      assert Key(Service, ns, name) in c.store;
    }
  }

  /** One index: its redhat observatoria, as part of a create phase that began at `start`. */
  method ReconcileIndex(c: Cluster, cr: Cr, parses: string -> bool, cfg: Config, ghost start: Store, ghost n: nat, ghost all: set<string>) returns (ok: bool)
    requires n <= |c.log| && CreatedForAll(parses, cfg.observatoria, !cfg.PromtailEnabled()) <= all
    requires AllGrew(c.log, n, start, cr.OperatorNs(), all) && Grew(start, c.store, cr.OperatorNs(), all)
    modifies c
    ensures old(c.log) <= c.log
    ensures AllGrew(c.log, n, start, cr.OperatorNs(), all) && Grew(start, c.store, cr.OperatorNs(), all)
    ensures Served(old(c.store), cr.OperatorNs()) <= Served(c.store, cr.OperatorNs())
    ensures OidcSecret(cr) in start ==> c.store == old(c.store)
    ensures ok && OidcSecret(cr) !in start ==>
      CreatedForAll(parses, cfg.observatoria, !cfg.PromtailEnabled()) <= Served(c.store, cr.OperatorNs())
    ensures c.Reliable() && ConfigDeployable(parses, cfg, OidcSecret(cr) in start) ==> ok
  {
    var ns, os, logsDisabled := cr.OperatorNs(), cfg.observatoria, !cfg.PromtailEnabled();
    assert os[..|os|] == os;
    ok := true;
    for j := 0 to |os|
      invariant old(c.log) <= c.log
      invariant AllGrew(c.log, n, start, ns, all) && Grew(start, c.store, ns, all)
      invariant Served(old(c.store), ns) <= Served(c.store, ns)
      invariant OidcSecret(cr) in start ==> c.store == old(c.store)
      invariant OidcSecret(cr) !in start ==> CreatedForAll(parses, os[..j], logsDisabled) <= Served(c.store, ns)
      invariant ok
    {
      assert os[..j + 1][..j] == os[..j];
      if os[j].authType == AuthTypeRedhat {
        CreatedByMember(parses, os, logsDisabled, j);
        ok := ReconcileNth(c, cr, parses, os[j], logsDisabled, start, n, all);
        if !ok { break; }
      }
    }
  }

  method ReconcileNth(c: Cluster, cr: Cr, parses: string -> bool, o: Observatorium, logsDisabled: bool, ghost start: Store, ghost n: nat, ghost all: set<string>) returns (ok: bool)
    requires n <= |c.log| && CreatedFor(parses, o, logsDisabled) <= all
    requires AllGrew(c.log, n, start, cr.OperatorNs(), all) && Grew(start, c.store, cr.OperatorNs(), all)
    modifies c
    ensures old(c.log) <= c.log
    ensures AllGrew(c.log, n, start, cr.OperatorNs(), all) && Grew(start, c.store, cr.OperatorNs(), all)
    ensures Served(old(c.store), cr.OperatorNs()) <= Served(c.store, cr.OperatorNs())
    ensures OidcSecret(cr) in start ==> c.store == old(c.store)
    ensures ok && OidcSecret(cr) !in start ==> CreatedFor(parses, o, logsDisabled) <= Served(c.store, cr.OperatorNs())
    ensures c.Reliable() && Deployable(parses, o, OidcSecret(cr) in start) ==> ok
  {
    ghost var a, before := c.store, c.log;
    assert SameAt(start, a, OidcSecret(cr));
    ok := ReconcileTokenRefresherFor(c, cr, parses, o, logsDisabled);
    GrewOn(before, c.log, n, start, a, c.store, cr.OperatorNs(), CreatedFor(parses, o, logsDisabled), all);
    GrewServes(a, c.store, cr.OperatorNs(), CreatedFor(parses, o, logsDisabled));
  }

  /** Every redhat observatorium is one the create phase accepts. */
  ghost predicate ConfigDeployable(parses: string -> bool, cfg: Config, oauth2: bool) {
    forall j :: 0 <= j < |cfg.observatoria| && cfg.observatoria[j].authType == AuthTypeRedhat ==>
      Deployable(parses, cfg.observatoria[j], oauth2)
  }

  ghost predicate AllDeployable(parses: string -> bool, indexes: seq<Index>, oauth2: bool) {
    forall i :: 0 <= i < |indexes| && indexes[i].config.Some? ==> ConfigDeployable(parses, indexes[i].config.value, oauth2)
  }

  lemma {:induction false} CreatedByMember(parses: string -> bool, os: seq<Observatorium>, logsDisabled: bool, j: nat)
    requires j < |os| && os[j].authType == AuthTypeRedhat
    ensures CreatedFor(parses, os[j], logsDisabled) <= CreatedForAll(parses, os, logsDisabled)
  {
    if j < |os| - 1 {
      CreatedByMember(parses, os[..|os| - 1], logsDisabled, j);
    }
  }

  lemma {:induction false} CreatedByIndex(parses: string -> bool, indexes: seq<Index>, i: nat)
    requires i < |indexes| && indexes[i].config.Some?
    ensures
      var cfg := indexes[i].config.value;
      CreatedForAll(parses, cfg.observatoria, !cfg.PromtailEnabled()) <= Created(parses, indexes)
  {
    if i < |indexes| - 1 {
      CreatedByIndex(parses, indexes[..|indexes| - 1], i);
    }
  }

  method ReconcileTokenRefresher(c: Cluster, cr: Cr, parses: string -> bool, indexes: seq<Index>) returns (ok: bool)
    modifies c
    ensures old(c.log) <= c.log
    ensures AllGrew(c.log, |old(c.log)|, old(c.store), cr.OperatorNs(), Created(parses, indexes))
    ensures Grew(old(c.store), c.store, cr.OperatorNs(), Created(parses, indexes))
    ensures OidcSecret(cr) in old(c.store) ==> c.store == old(c.store)
    ensures ok && OidcSecret(cr) !in old(c.store) ==>
      && Refreshers(c.store, cr.OperatorNs()) == Refreshers(old(c.store), cr.OperatorNs()) + Created(parses, indexes)
      && Created(parses, indexes) <= Served(c.store, cr.OperatorNs())
    ensures c.Reliable() && AllDeployable(parses, indexes, OidcSecret(cr) in old(c.store)) ==> ok
  {
    var ns := cr.OperatorNs();
    ghost var all := Created(parses, indexes);
    assert indexes[..|indexes|] == indexes;
    ok := true;
    for i := 0 to |indexes|
      invariant old(c.log) <= c.log && ok
      invariant AllGrew(c.log, |old(c.log)|, old(c.store), ns, all) && Grew(old(c.store), c.store, ns, all)
      invariant OidcSecret(cr) in old(c.store) ==> c.store == old(c.store)
      invariant OidcSecret(cr) !in old(c.store) ==> Created(parses, indexes[..i]) <= Served(c.store, ns)
    {
      assert indexes[..i + 1][..i] == indexes[..i];
      if indexes[i].config.None? { continue; }
      CreatedByIndex(parses, indexes, i);
      ok := ReconcileIndex(c, cr, parses, indexes[i].config.value, old(c.store), |old(c.log)|, all);
      if !ok { break; }
    }
  }

  // ---------- The whole sync of token refreshers ----------

  /** The proxies a sync should leave, whatever was there before. */
  function Requested(cr: Cr, oauth2: bool, parses: string -> bool, indexes: seq<Index>): set<string> {
    if cr.ObservatoriumDisabled() || oauth2 then {} else Created(parses, indexes)
  }

  /** The `j`th observatorium of the `i`th index has what a proxy of this type needs: a redhat login with its client. */
  ghost predicate Calls(parses: string -> bool, indexes: seq<Index>, i: int, j: int, logs: bool, name: string) {
    && 0 <= i < |indexes| && indexes[i].config.Some? && 0 <= j < |indexes[i].config.value.observatoria|
    && var cfg, o := indexes[i].config.value, indexes[i].config.value.observatoria[j];
    && o.authType == "redhat" && o.sso.Some? && parses(o.sso.value.url) && o.sso.value.url != "" && o.sso.value.realm != ""
    && if logs then
         && cfg.promtail.Some? && cfg.promtail.value.enabled && o.sso.value.logsClient != "" && o.sso.value.logsSecret != ""
         && name == "token-refresher-logs-" + o.id
       else
         && o.sso.value.metricsClient != "" && o.sso.value.metricsSecret != ""
         && name == "token-refresher-metrics-" + o.id
  }

  /** A sync asks for exactly the proxies its settings call for, unless the observatoria or the proxies as a whole are off. */
  lemma RequestedIff(cr: Cr, oauth2: bool, parses: string -> bool, indexes: seq<Index>, name: string)
    ensures name in Requested(cr, oauth2, parses, indexes) <==>
      && !oauth2 && (cr.selfContained.Some? ==> cr.selfContained.value.disableObservatorium != Some(true))
      && exists i, j, logs :: Calls(parses, indexes, i, j, logs, name)
  {
    if name in Created(parses, indexes) {
      var i, j, t := CreatedBy(parses, indexes, name);
      CallsIff(parses, indexes, i, j, t, name);
    }
    if i, j, logs :| Calls(parses, indexes, i, j, logs, name) {
      var t := if logs then Logs else Metrics;
      var cfg := indexes[i].config.value;
      CallsIff(parses, indexes, i, j, t, name);
      CreatedByMember(parses, cfg.observatoria, !cfg.PromtailEnabled(), j);
      CreatedByIndex(parses, indexes, i);
    }
  }

  lemma CallsIff(parses: string -> bool, indexes: seq<Index>, i: nat, j: nat, t: RefresherType, name: string)
    requires i < |indexes| && indexes[i].config.Some? && j < |indexes[i].config.value.observatoria|
    ensures
      var cfg := indexes[i].config.value;
      var o := cfg.observatoria[j];
      Calls(parses, indexes, i, j, t.Logs?, name) <==> o.authType == AuthTypeRedhat && name in CreatedForType(parses, o, !cfg.PromtailEnabled(), t)
  {
    var o := indexes[i].config.value.observatoria[j];
    assert RefresherName(o.id, Logs) == "token-refresher-logs-" + o.id && RefresherName(o.id, Metrics) == "token-refresher-metrics-" + o.id;
  }

  lemma {:induction false} CreatedBy(parses: string -> bool, indexes: seq<Index>, name: string) returns (i: nat, j: nat, t: RefresherType)
    requires name in Created(parses, indexes)
    ensures i < |indexes| && indexes[i].config.Some? && j < |indexes[i].config.value.observatoria|
    ensures
      var cfg := indexes[i].config.value;
      cfg.observatoria[j].authType == AuthTypeRedhat && name in CreatedForType(parses, cfg.observatoria[j], !cfg.PromtailEnabled(), t)
  {
    var last := |indexes| - 1;
    if name in Created(parses, indexes[..last]) {
      i, j, t := CreatedBy(parses, indexes[..last], name);
    } else {
      i := last;
      var cfg := indexes[i].config.value;
      j, t := CreatedAmong(parses, cfg.observatoria, !cfg.PromtailEnabled(), name);
    }
  }

  lemma {:induction false} CreatedAmong(parses: string -> bool, os: seq<Observatorium>, logsDisabled: bool, name: string) returns (j: nat, t: RefresherType)
    requires name in CreatedForAll(parses, os, logsDisabled)
    ensures j < |os| && os[j].authType == AuthTypeRedhat && name in CreatedForType(parses, os[j], logsDisabled, t)
  {
    var last := |os| - 1;
    if name in CreatedForAll(parses, os[..last], logsDisabled) {
      j, t := CreatedAmong(parses, os[..last], logsDisabled, name);
    } else {
      j, t := last, if name in CreatedForType(parses, os[last], logsDisabled, Metrics) then Metrics else Logs;
    }
  }

  /** The proxies a completed sync does leave. */
  function Settled(start: set<string>, cr: Cr, oauth2: bool, parses: string -> bool, indexes: seq<Index>): set<string> {
    Vouched(start, cr, oauth2, parses, indexes) + Requested(cr, oauth2, parses, indexes)
  }

  /**
   Delete stale deployments, then stale policies, then create. Wherever it stops, with an error, with a
   crash or at any single API call, every proxy has its policy, if that was so at the start.
   */
  method SyncTokenRefreshers(c: Cluster, cr: Cr, parses: string -> bool, indexes: seq<Index>) returns (out: Outcome)
    modifies c
    ensures old(c.log) <= c.log
    ensures Covered(old(c.store)) ==> Covered(c.store) && CoveredThroughout(c.log, |old(c.log)|)
    ensures OnlyProxyKindsChanged(old(c.store), c.store) && Adds(old(c.store), c.store, ProxyMark(cr.OperatorNs()))
    ensures out.Completed? ==>
      && Refreshers(c.store, cr.OperatorNs())
         == Settled(Refreshers(old(c.store), cr.OperatorNs()), cr, OidcSecret(cr) in old(c.store), parses, indexes)
      && Requested(cr, OidcSecret(cr) in old(c.store), parses, indexes) <= Served(c.store, cr.OperatorNs())
    ensures c.Reliable() && DeploymentsJudged(old(c.store), cr, parses, indexes) && Feasible(old(c.store), cr, parses, indexes) ==> out.Completed?
  {
    out := DeleteUnrequestedTokenRefreshers(c, cr, parses, indexes);
    if out.Completed? {
      ghost var s, n := c.store, |c.log|;
      assert OidcSecret(cr) in s <==> OidcSecret(cr) in old(c.store) by { assert SameAt(old(c.store), s, OidcSecret(cr)); }
      if Feasible(old(c.store), cr, parses, indexes) { FeasibleStays(old(c.store), s, cr, parses, indexes); }
      out := FinishSync(c, cr, parses, indexes);
      StretchesCovered(old(c.store), |old(c.log)|, s, n, c.log, c.store);
      ChangesOn(old(c.store), s, c.store, cr.OperatorNs());
    }
  }

  lemma ChangesOn(a: Store, b: Store, d: Store, ns: string)
    requires OnlyProxyKindsChanged(a, b) && OnlyProxyKindsChanged(b, d)
    requires Adds(a, b, ProxyMark(ns)) && Adds(b, d, ProxyMark(ns))
    ensures OnlyProxyKindsChanged(a, d) && Adds(a, d, ProxyMark(ns))
  {
    AddsOn(a, b, d, ProxyMark(ns));
    forall k: Key | k.kind !in {Deployment, NetworkPolicy, Service} ensures SameAt(a, d, k) {
      assert SameAt(a, b, k) && SameAt(b, d, k);
    }
  }

  /** Past the proxies: the closure gets through every policy, and every observatorium is deployable. */
  ghost predicate Feasible(s: Store, cr: Cr, parses: string -> bool, indexes: seq<Index>) {
    && PoliciesJudged(s, cr, parses, indexes)
    && (cr.ObservatoriumDisabled() || AllDeployable(parses, indexes, OidcSecret(cr) in s))
  }

  lemma FeasibleStays(s: Store, t: Store, cr: Cr, parses: string -> bool, indexes: seq<Index>)
    requires Feasible(s, cr, parses, indexes) && t == s - StaleDeployments(s, cr, parses, indexes)
    ensures Feasible(t, cr, parses, indexes)
  {
    assert Selected(t, NetworkPolicy, cr.OperatorNs(), ProxyLabels) == Selected(s, NetworkPolicy, cr.OperatorNs(), ProxyLabels);
  }

  lemma StretchesCovered(a: Store, n: nat, b: Store, m: nat, log: seq<Step>, d: Store)
    requires n <= m <= |log|
    requires Covered(a) ==> Covered(b) && CoveredThroughout(log[..m], n)
    requires Covered(b) ==> Covered(d) && CoveredThroughout(log, m)
    ensures Covered(a) ==> Covered(d) && CoveredThroughout(log, n)
  {
    if Covered(a) {
      forall i | n <= i < |log| ensures Covered(log[i].post.store) {
        if i < m { assert log[i] == log[..m][i]; }
      }
    }
  }

  /** Once every proxy left is vouched for: the policies, then the new proxies. */
  method FinishSync(c: Cluster, cr: Cr, parses: string -> bool, indexes: seq<Index>) returns (out: Outcome)
    requires AllVouched(c.store, cr, parses, indexes)
    modifies c
    ensures old(c.log) <= c.log
    ensures Covered(old(c.store)) ==> Covered(c.store) && CoveredThroughout(c.log, |old(c.log)|)
    ensures OnlyProxyKindsChanged(old(c.store), c.store) && Adds(old(c.store), c.store, ProxyMark(cr.OperatorNs()))
    ensures out.Completed? ==>
      && Refreshers(c.store, cr.OperatorNs())
         == Refreshers(old(c.store), cr.OperatorNs()) + Requested(cr, OidcSecret(cr) in old(c.store), parses, indexes)
      && Requested(cr, OidcSecret(cr) in old(c.store), parses, indexes) <= Served(c.store, cr.OperatorNs())
    ensures c.Reliable() && Feasible(old(c.store), cr, parses, indexes) ==> out.Completed?
  {
    out := DeleteUnrequestedNetworkPolicies(c, cr, parses, indexes);
    if out.Completed? {
      ghost var s, n := c.store, |c.log|;
      assert SameAt(old(c.store), s, OidcSecret(cr));
      var ok := CreateAll(c, cr, parses, indexes);
      ChangesOn(old(c.store), s, c.store, cr.OperatorNs());
      StretchesCovered(old(c.store), |old(c.log)|, s, n, c.log, c.store);
      if !ok { out := Errored; }
    }
  }

  /** The create phase, if the observatoria are on. */
  method CreateAll(c: Cluster, cr: Cr, parses: string -> bool, indexes: seq<Index>) returns (ok: bool)
    modifies c
    ensures old(c.log) <= c.log
    ensures Covered(old(c.store)) ==> Covered(c.store) && CoveredThroughout(c.log, |old(c.log)|)
    ensures OnlyProxyKindsChanged(old(c.store), c.store) && Adds(old(c.store), c.store, ProxyMark(cr.OperatorNs()))
    ensures ok ==>
      && Refreshers(c.store, cr.OperatorNs())
         == Refreshers(old(c.store), cr.OperatorNs()) + Requested(cr, OidcSecret(cr) in old(c.store), parses, indexes)
      && Requested(cr, OidcSecret(cr) in old(c.store), parses, indexes) <= Served(c.store, cr.OperatorNs())
    ensures c.Reliable() && (cr.ObservatoriumDisabled() || AllDeployable(parses, indexes, OidcSecret(cr) in old(c.store))) ==> ok
  {
    ok := true;
    if !cr.ObservatoriumDisabled() {
      ok := ReconcileTokenRefresher(c, cr, parses, indexes);
      GrewKeepsCover(old(c.store), |old(c.log)|, c.log, c.store, cr.OperatorNs(), Created(parses, indexes));
    }
  }

  lemma GrewKeepsCover(s: Store, n: nat, log: seq<Step>, now: Store, ns: string, atMost: set<string>)
    requires AllGrew(log, n, s, ns, atMost) && Grew(s, now, ns, atMost)
    ensures Covered(s) ==> Covered(now) && CoveredThroughout(log, n)
  {
  }

  // ---------- When a sync converges ----------

  /** A scan gets to the end, meets one of the early returns, or dereferences a nil configuration set. */
  datatype Exit = Through | Returns | Trips

  /** What a scan collected, and how it ended. */
  datatype Scan = Scan(names: set<string>, exit: Exit)

  function ScanTypes(parses: string -> bool, cfg: Config, o: Observatorium): Scan {
    match (ConfigSetFor(parses, Metrics, o), ConfigSetFor(parses, Logs, o))
    case (SomeSet(metrics, _), SomeSet(logs, _)) =>
      if cfg.PromtailEnabled() then Scan({metrics, logs}, Through) else Scan({metrics}, Returns)
    case (SomeSet(metrics, _), NilSet) => Scan({metrics}, if cfg.PromtailEnabled() then Trips else Returns)
    case (SomeSet(metrics, _), SetError) => Scan({metrics}, Returns)
    case (NilSet, _) => Scan({}, Trips)
    case (SetError, _) => Scan({}, Returns)
  }

  function ScanObservatoria(parses: string -> bool, cfg: Config, os: seq<Observatorium>): Scan {
    if os == [] then Scan({}, Through)
    else if !os[0].IsValid() || os[0].sso.None? then Scan({}, Returns)
    else
      var here := ScanTypes(parses, cfg, os[0]);
      if !here.exit.Through? then here
      else
        var rest := ScanObservatoria(parses, cfg, os[1..]);
        Scan(here.names + rest.names, rest.exit)
  }

  /** The names in reach of the closure's scan: those before its first early return. */
  function InReach(parses: string -> bool, indexes: seq<Index>): set<string> {
    if indexes == [] || indexes[0].config.None? then {}
    else
      var cfg := indexes[0].config.value;
      var here := ScanObservatoria(parses, cfg, cfg.observatoria);
      here.names + if here.exit.Through? then InReach(parses, indexes[1..]) else {}
  }

  predicate TripsUp(parses: string -> bool, indexes: seq<Index>) {
    && indexes != [] && indexes[0].config.Some?
    && var cfg := indexes[0].config.value;
       var here := ScanObservatoria(parses, cfg, cfg.observatoria);
       here.exit.Trips? || (here.exit.Through? && TripsUp(parses, indexes[1..]))
  }

  lemma {:induction false} ScanDecidesObservatoria(parses: string -> bool, cfg: Config, os: seq<Observatorium>, name: string)
    ensures
      var scan := ScanObservatoria(parses, cfg, os);
      var v := DeploymentObservatoria(parses, cfg, os, name);
      && (v == Some(Keep) <==> name in scan.names)
      && (v.None? <==> scan.exit.Through? && name !in scan.names)
      && (v == Some(Panic) <==> scan.exit.Trips? && name !in scan.names)
  {
    if os != [] {
      ScanDecidesObservatoria(parses, cfg, os[1..], name);
    }
  }

  /** The closure vouches for exactly the names in its reach. */
  lemma {:induction false} ReachDecides(parses: string -> bool, indexes: seq<Index>, name: string)
    ensures DeploymentIndexes(parses, indexes, name) == Keep <==> name in InReach(parses, indexes)
    ensures DeploymentIndexes(parses, indexes, name) == Panic <==> TripsUp(parses, indexes) && name !in InReach(parses, indexes)
  {
    if indexes != [] && indexes[0].config.Some? {
      var cfg := indexes[0].config.value;
      ScanDecidesObservatoria(parses, cfg, cfg.observatoria, name);
      ReachDecides(parses, indexes[1..], name);
    }
  }

  /** The scan goes past this observatorium: it has a gateway and the credentials of both kinds of proxy, and Promtail is on. */
  predicate GoesPast(parses: string -> bool, cfg: Config, o: Observatorium) {
    && o.IsValid() && o.sso.Some? && parses(o.sso.value.url)
    && o.sso.value.HasMetrics() && cfg.PromtailEnabled() && o.sso.value.HasLogs()
  }

  /** It ends in a nil dereference here: credentials that the closure asks for are incomplete. */
  predicate Lacking(parses: string -> bool, cfg: Config, o: Observatorium) {
    && o.IsValid() && o.sso.Some? && parses(o.sso.value.url)
    && (!o.sso.value.HasMetrics() || (cfg.PromtailEnabled() && !o.sso.value.HasLogs()))
  }

  /** Observatorium `j` is lacking, and the scan goes past all before it. */
  ghost predicate LackingAt(parses: string -> bool, cfg: Config, os: seq<Observatorium>, j: nat) {
    j < |os| && Lacking(parses, cfg, os[j]) && AllGonePast(parses, cfg, os[..j])
  }

  ghost predicate AllPassed(parses: string -> bool, index: Index) {
    index.config.Some? && AllGonePast(parses, index.config.value, index.config.value.observatoria)
  }

  /** The same within a list of indexes: observatorium `j` of index `i`. */
  ghost predicate StumblesAt(parses: string -> bool, indexes: seq<Index>, i: nat, j: nat) {
    && i < |indexes| && indexes[i].config.Some? && LackingAt(parses, indexes[i].config.value, indexes[i].config.value.observatoria, j)
    && forall m :: 0 <= m < i ==> AllPassed(parses, indexes[m])
  }

  ghost predicate AllGonePast(parses: string -> bool, cfg: Config, os: seq<Observatorium>) {
    forall l :: 0 <= l < |os| ==> GoesPast(parses, cfg, os[l])
  }

  lemma PastFirst(parses: string -> bool, cfg: Config, os: seq<Observatorium>, j: nat)
    requires j < |os|
    ensures AllGonePast(parses, cfg, os[..j + 1]) <==> GoesPast(parses, cfg, os[0]) && AllGonePast(parses, cfg, os[1..][..j])
  {
    var front, back := os[..j + 1], os[1..][..j];
    assert front == [os[0]] + back;
    if AllGonePast(parses, cfg, front) {
      forall l | 0 <= l < |back| ensures GoesPast(parses, cfg, back[l]) { assert back[l] == front[l + 1]; }
      assert front[0] == os[0];
    }
  }

  lemma {:induction false} ScanGoesThrough(parses: string -> bool, cfg: Config, os: seq<Observatorium>)
    ensures ScanObservatoria(parses, cfg, os).exit.Through? <==> AllGonePast(parses, cfg, os)
  {
    if os != [] {
      ScanGoesThrough(parses, cfg, os[1..]);
      assert os[..|os|] == os && os[1..][..|os| - 1] == os[1..];
      PastFirst(parses, cfg, os, |os| - 1);
    }
  }

  lemma {:induction false} ScanTrips(parses: string -> bool, cfg: Config, os: seq<Observatorium>)
    ensures ScanObservatoria(parses, cfg, os).exit.Trips? <==> exists j :: LackingAt(parses, cfg, os, j)
  {
    if os != [] {
      var rest := os[1..];
      ScanTrips(parses, cfg, rest);
      if GoesPast(parses, cfg, os[0]) {
        forall j: nat | LackingAt(parses, cfg, rest, j) ensures LackingAt(parses, cfg, os, j + 1) { PastFirst(parses, cfg, os, j); }
        forall j: nat | LackingAt(parses, cfg, os, j) && j > 0 ensures LackingAt(parses, cfg, rest, j - 1) { PastFirst(parses, cfg, os, j - 1); }
      } else {
        assert Lacking(parses, cfg, os[0]) ==> LackingAt(parses, cfg, os, 0);
        forall j: nat | LackingAt(parses, cfg, os, j) ensures j == 0 { if j > 0 { PastFirst(parses, cfg, os, j - 1); } }
      }
    }
  }

  lemma {:induction false} TripsUpIff(parses: string -> bool, indexes: seq<Index>)
    ensures TripsUp(parses, indexes) <==> exists i, j :: StumblesAt(parses, indexes, i, j)
  {
    if indexes != [] && indexes[0].config.Some? {
      var cfg, rest := indexes[0].config.value, indexes[1..];
      ScanGoesThrough(parses, cfg, cfg.observatoria);
      ScanTrips(parses, cfg, cfg.observatoria);
      TripsUpIff(parses, rest);
      forall j: nat | LackingAt(parses, cfg, cfg.observatoria, j) ensures StumblesAt(parses, indexes, 0, j) {}
      if AllPassed(parses, indexes[0]) {
        forall i: nat, j: nat | StumblesAt(parses, rest, i, j) ensures StumblesAt(parses, indexes, i + 1, j) {
          forall m | 0 <= m < i + 1 ensures AllPassed(parses, indexes[m]) { if m > 0 { assert indexes[m] == rest[m - 1]; } }
        }
        forall i: nat, j: nat | StumblesAt(parses, indexes, i, j) && i > 0 ensures StumblesAt(parses, rest, i - 1, j) {
          forall m | 0 <= m < i - 1 ensures AllPassed(parses, rest[m]) { assert rest[m] == indexes[m + 1]; }
        }
      }
    }
  }

  /**
   When the delete phase crashes on a proxy: exactly if the first observatorium that the closure's scan does
   not get past has incomplete credentials, and the proxy is not one it had vouched for before.
   */
  lemma PanicsIff(cr: Cr, oauth2: bool, parses: string -> bool, indexes: seq<Index>, name: string)
    ensures DeploymentVerdict(cr, oauth2, parses, indexes)(name) == Panic <==>
      && !cr.ExternalSyncDisabled() && !cr.ObservatoriumDisabled() && !oauth2
      && (exists i, j :: StumblesAt(parses, indexes, i, j)) && name !in InReach(parses, indexes)
    ensures PolicyVerdict(cr, oauth2, parses, indexes)(name + PolicySuffix) == DeploymentVerdict(cr, oauth2, parses, indexes)(name)
  {
    ReachDecides(parses, indexes, name);
    TripsUpIff(parses, indexes);
    VerdictsAgree(cr, oauth2, parses, indexes, name);
  }

  /**
   A sync leaves the requested proxies from every starting cluster exactly when it is switched off anyway
   or everything in the closure's reach is something the create phase would make.
   */
  lemma ConvergesIff(cr: Cr, oauth2: bool, parses: string -> bool, indexes: seq<Index>)
    ensures (forall start :: Settled(start, cr, oauth2, parses, indexes) == Requested(cr, oauth2, parses, indexes))
      <==> cr.ExternalSyncDisabled() || cr.ObservatoriumDisabled() || oauth2 || InReach(parses, indexes) <= Created(parses, indexes)
  {
    forall n ensures DeploymentIndexes(parses, indexes, n) == Keep <==> n in InReach(parses, indexes) {
      ReachDecides(parses, indexes, n);
    }
    if forall start :: Settled(start, cr, oauth2, parses, indexes) == Requested(cr, oauth2, parses, indexes) {
      var start := InReach(parses, indexes);
      assert Settled(start, cr, oauth2, parses, indexes) == Requested(cr, oauth2, parses, indexes);
      if !cr.ExternalSyncDisabled() && !cr.ObservatoriumDisabled() && !oauth2 {
        assert Vouched(start, cr, oauth2, parses, indexes) == start;
      }
    }
  }

  /**
   The delete phase spares every proxy the create phase goes on to want, exactly when there is nothing to
   want or all that is created lies within the closure's reach.
   */
  lemma SparedIff(cr: Cr, oauth2: bool, parses: string -> bool, indexes: seq<Index>)
    ensures (forall n :: n in Requested(cr, oauth2, parses, indexes) ==> DeploymentVerdict(cr, oauth2, parses, indexes)(n) == Keep)
      <==>
      || cr.ObservatoriumDisabled() || oauth2
      || if cr.ExternalSyncDisabled() then Created(parses, indexes) == {} else Created(parses, indexes) <= InReach(parses, indexes)
  {
    forall n ensures DeploymentIndexes(parses, indexes, n) == Keep <==> n in InReach(parses, indexes) {
      ReachDecides(parses, indexes, n);
    }
    var reach := if cr.ExternalSyncDisabled() then {} else InReach(parses, indexes);
    if !cr.ObservatoriumDisabled() && !oauth2 {
      forall n ensures DeploymentVerdict(cr, oauth2, parses, indexes)(n) == Keep <==> n in reach {}
      if !(Created(parses, indexes) <= reach) {
        var n :| n in Created(parses, indexes) && n !in reach;
        assert n in Requested(cr, oauth2, parses, indexes);
      }
    }
  }

  /** Single sign-on credentials occur only where the authentication type asks for them. */
  ghost predicate SsoOnlyForRedhat(indexes: seq<Index>) {
    forall i, j :: 0 <= i < |indexes| && indexes[i].config.Some? && 0 <= j < |indexes[i].config.value.observatoria| ==>
      var o := indexes[i].config.value.observatoria[j]; o.sso.Some? ==> o.authType == AuthTypeRedhat
  }

  lemma {:induction false} ReachOfConfig(parses: string -> bool, cfg: Config, j: nat)
    requires j <= |cfg.observatoria|
    requires forall i :: 0 <= i < |cfg.observatoria| && cfg.observatoria[i].sso.Some? ==> cfg.observatoria[i].authType == AuthTypeRedhat
    ensures ScanObservatoria(parses, cfg, cfg.observatoria[j..]).names
      <= CreatedForAll(parses, cfg.observatoria, !cfg.PromtailEnabled())
    decreases |cfg.observatoria| - j
  {
    var os := cfg.observatoria;
    if j < |os| {
      assert os[j..][1..] == os[j + 1..];
      ReachOfConfig(parses, cfg, j + 1);
      if os[j].sso.Some? {
        CreatedByMember(parses, os, !cfg.PromtailEnabled(), j);
      }
    }
  }

  lemma {:induction false} ReachFrom(parses: string -> bool, indexes: seq<Index>, i: nat)
    requires i <= |indexes| && SsoOnlyForRedhat(indexes)
    ensures InReach(parses, indexes[i..]) <= Created(parses, indexes)
    decreases |indexes| - i
  {
    if i < |indexes| && indexes[i].config.Some? {
      var cfg := indexes[i].config.value;
      assert cfg.observatoria[0..] == cfg.observatoria;
      ReachOfConfig(parses, cfg, 0);
      CreatedByIndex(parses, indexes, i);
      assert indexes[i..][1..] == indexes[i + 1..];
      ReachFrom(parses, indexes, i + 1);
    }
  }

  /** Whatever the cluster held and in whatever order the indexes come, the sync leaves the requested proxies. */
  lemma Converges(cr: Cr, oauth2: bool, parses: string -> bool, indexes: seq<Index>, start: set<string>)
    requires SsoOnlyForRedhat(indexes)
    ensures Settled(start, cr, oauth2, parses, indexes) == Requested(cr, oauth2, parses, indexes)
  {
    assert indexes[0..] == indexes;
    ReachFrom(parses, indexes, 0);
    ConvergesIff(cr, oauth2, parses, indexes);
  }

  // ---------- Where the obvious claims fail ----------

  function SampleObservatorium(id: string, authType: string): Observatorium {
    Observatorium(id, "", "https://gateway", "tenant", authType, None, Some(RedhatSso("https://sso", "realm", "client", "secret", "", "")))
  }

  function SampleIndexes(os: seq<Observatorium>): seq<Index> {
    [Index("index", "", "", "", Some(Config(None, None, None, None, os)))]
  }

  /** Credentials on a dex observatorium keep an old proxy alive that no sync would create. */
  lemma StaleProxySurvives(cr: Cr, parses: string -> bool)
    requires !cr.ExternalSyncDisabled() && !cr.ObservatoriumDisabled() && parses("https://sso")
    ensures
      var indexes := SampleIndexes([SampleObservatorium("a", AuthTypeDex)]);
      var stale := RefresherName("a", Metrics);
      stale in Settled({stale}, cr, false, parses, indexes) && stale !in Requested(cr, false, parses, indexes)
  {
    var os := [SampleObservatorium("a", AuthTypeDex)];
    var indexes := SampleIndexes(os);
    assert os[..0] == [] && indexes[..0] == [];
    assert CreatedForAll(parses, os, true) == {};
    assert Created(parses, indexes) == Created(parses, indexes[..0]);
    assert DeploymentVerdict(cr, false, parses, indexes)(RefresherName("a", Metrics)) == Keep;
  }

  /** With Promtail off, the second observatorium's proxy is deleted by every sync that goes on to create it again. */
  lemma WantedProxyFlaps(cr: Cr, parses: string -> bool)
    requires !cr.ExternalSyncDisabled() && !cr.ObservatoriumDisabled() && parses("https://sso")
    ensures
      var indexes := SampleIndexes([SampleObservatorium("a", AuthTypeRedhat), SampleObservatorium("b", AuthTypeRedhat)]);
      var wanted := RefresherName("b", Metrics);
      wanted in Requested(cr, false, parses, indexes) && DeploymentVerdict(cr, false, parses, indexes)(wanted) == Drop
  {
    var os := [SampleObservatorium("a", AuthTypeRedhat), SampleObservatorium("b", AuthTypeRedhat)];
    var indexes := SampleIndexes(os);
    CreatedByMember(parses, os, true, 1);
    CreatedByIndex(parses, indexes, 0);
    assert RefresherName("b", Metrics)[|RefresherName("b", Metrics)| - 1] != RefresherName("a", Metrics)[|RefresherName("a", Metrics)| - 1];
  }
}
