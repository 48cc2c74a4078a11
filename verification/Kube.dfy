/**
 The API server as the operator sees it: a store of objects that every Get, List, Delete and
 CreateOrUpdate call reads or changes in one step, and the workloads that other controllers run.

 Any call may fail, either before it takes effect or after it (the reply is lost). Before every call
 the environment may move: workloads vanish at will, and appear only while a custom resource that
 spawns them exists. What other controllers write into the status of objects may change from call to
 call. All three are arbitrary parameters of a Cluster, so what is proved of a method holds for every
 pattern of failures and every interleaving with the environment.
 */
module Kube {

  datatype Option<+T> = None | Some(value: T)

  datatype Kind =
    | Secret | ConfigMap | Deployment | DaemonSet | StatefulSet | NetworkPolicy | Service
    | ServiceAccount | ClusterRole | ClusterRoleBinding | Route
    | Prometheus | Alertmanager | Grafana | GrafanaDataSource | GrafanaDashboard
    | PrometheusRule | PodMonitor
    | Subscription | OperatorGroup | CatalogSource | Csv
    | ClusterLogging | ClusterLogForwarder | Namespace

  /** Cluster-scoped objects have the empty namespace. */
  datatype Key = Key(kind: Kind, ns: string, name: string)

  type Labels = map<string, string>

  /** Only what the operator's own decisions read: labels, string data, and the labels of each alerting rule by group. */
  datatype Obj = Obj(labels: Labels, data: map<string, string>, groups: seq<seq<Labels>>)

  /** A data field; a missing one reads as empty. */
  function Text(o: Obj, field: string): string {
    if field in o.data then o.data[field] else ""
  }

  type Store = map<Key, Obj>

  const Blank := Obj(map[], map[], [])

  datatype Snapshot = Snapshot(store: Store, workloads: set<Key>)

  datatype Op = Read | Put(key: Key) | Del(key: Key)

  /** One API call: what the cluster was when the call took effect, the call, and what it left. */
  datatype Step = Step(pre: Snapshot, op: Op, post: Snapshot)

  datatype Fault = Healthy | Rejected | LostReply

  datatype Reply = Found(obj: Obj) | NotFound | GetFailed
  datatype Ack = Done | Missing | Failed
  datatype Listing = Listed(order: seq<Key>, items: Store) | ListFailed

  /** Does the controller behind custom resource `cr` run workload `w`? */
  predicate Spawns(cr: Key, w: Key) {
    || (cr.kind == Prometheus && w == Key(StatefulSet, cr.ns, "prometheus-" + cr.name))
    || (cr.kind == Alertmanager && w == Key(StatefulSet, cr.ns, "alertmanager-" + cr.name))
    || (cr.kind == Grafana && w == Key(Deployment, cr.ns, "grafana-deployment"))
  }

  predicate Spawned(s: Store, w: Key) {
    exists cr :: cr in s && Spawns(cr, w)
  }

  predicate Matches(o: Obj, sel: Labels) {
    forall l :: l in sel ==> l in o.labels && o.labels[l] == sel[l]
  }

  /** What a List call with this kind, namespace and label selector returns. */
  function Selected(s: Store, kind: Kind, ns: string, sel: Labels): (r: Store) {
    map k | k in s && k.kind == kind && k.ns == ns && Matches(s[k], sel) :: s[k]
  }

  /** The same without a namespace: from all of them. */
  function SelectedAnywhere(s: Store, kind: Kind, sel: Labels): (r: Store) {
    map k | k in s && k.kind == kind && Matches(s[k], sel) :: s[k]
  }

  ghost predicate Enumerates(order: seq<Key>, items: Store) {
    && (forall k :: k in order <==> k in items)
    && (forall i, j :: 0 <= i < j < |order| ==> order[i] != order[j])
  }

  ghost predicate Submap(a: Store, b: Store) {
    forall k :: k in a ==> k in b && a[k] == b[k]
  }

  /** Whatever is in `b` and was not so in `a` bears the mark. */
  ghost predicate Adds(a: Store, b: Store, mark: (Key, Obj) -> bool) {
    forall k :: k in b && !(k in a && a[k] == b[k]) ==> mark(k, b[k])
  }

  lemma AddsOn(a: Store, b: Store, d: Store, mark: (Key, Obj) -> bool)
    requires Adds(a, b, mark) && Adds(b, d, mark)
    ensures Adds(a, d, mark)
  {
  }

  lemma AddsPut(a: Store, b: Store, k: Key, o: Obj, mark: (Key, Obj) -> bool)
    requires Adds(a, b, mark) && mark(k, o)
    ensures Adds(a, b[k := o], mark)
  {
  }

  lemma AddsWiden(a: Store, b: Store, mark: (Key, Obj) -> bool, wide: (Key, Obj) -> bool)
    requires Adds(a, b, mark) && forall k, o :: mark(k, o) ==> wide(k, o)
    ensures Adds(a, b, wide)
  {
  }

  /** Every call since the log had `n` entries left the store as `s`. */
  ghost predicate Still(log: seq<Step>, n: nat, s: Store) {
    forall i :: n <= i < |log| ==> log[i].post.store == s
  }

  /** The kinds that an authentication proxy and its network policy are. */
  const ProxyKinds := {Deployment, NetworkPolicy}

  ghost predicate SameKinds(a: Store, b: Store, kinds: set<Kind>) {
    forall k: Key :: k.kind in kinds ==> (k in a <==> k in b) && (k in a && k in b ==> a[k] == b[k])
  }

  /** No call since the log had `n` entries changed an object of these kinds. */
  ghost predicate Spares(log: seq<Step>, n: nat, s: Store, kinds: set<Kind>) {
    forall i :: n <= i < |log| ==> SameKinds(s, log[i].post.store, kinds)
  }

  /** What an interval in which nobody creates custom resources can do to the workloads. */
  ghost predicate Drift(from: Snapshot, to: Snapshot) {
    forall w :: w in to.workloads ==> w in from.workloads || Spawned(from.store, w)
  }

  /** What the other controllers report in an object's status: ready replicas, and the conditions of a route's ingresses. */
  datatype Condition = Condition(admission: bool, met: bool)
  datatype Shown = Shown(replicas: nat, ingress: seq<seq<Condition>>)

  /** No ingress refuses the route; one without any ingress is admitted. */
  ghost predicate Admitted(ingress: seq<seq<Condition>>) {
    forall i, j :: 0 <= i < |ingress| && 0 <= j < |ingress[i]| && ingress[i][j].admission ==> ingress[i][j].met
  }

  class Cluster {
    var store: Store
    var workloads: set<Key>
    var calls: nat
    ghost var log: seq<Step>

    const faults: nat -> Fault
    const env: (nat, Store, set<Key>) -> set<Key>
    const shown: (nat, Key) -> Shown

    constructor (s: Store, w: set<Key>, f: nat -> Fault, e: (nat, Store, set<Key>) -> set<Key>, r: (nat, Key) -> Shown)
      ensures store == s && workloads == w && log == [] && faults == f && env == e && shown == r
    {
      store, workloads, calls, log := s, w, 0, [];
      faults, env, shown := f, e, r;
    }

    ghost function Now(): Snapshot
      reads this
    {
      Snapshot(store, workloads)
    }

    /** No API call fails. */
    ghost predicate Reliable() {
      forall n :: faults(n) == Healthy
    }

    /** Some call from number `from` up to `to` fails. */
    ghost predicate Faulted(from: nat, to: nat) {
      exists n :: from <= n < to && faults(n) != Healthy
    }

    /** Every deployment waited for is ready and every route admitted, whenever one looks. */
    ghost predicate Obliging() {
      forall n, k :: shown(n, k).replicas > 0 && Admitted(shown(n, k).ingress)
    }

    /** The other controllers start nothing new. */
    ghost predicate Quiet() {
      forall n, s, w :: env(n, s, w) <= w
    }

    /** They neither start nor stop anything. */
    ghost predicate Idle() {
      forall n, s, w :: env(n, s, w) == w
    }

    /** What a stretch of calls does to the workloads in a quiet cluster and in an idle one. */
    ghost predicate Calm(was: set<Key>, now: set<Key>) {
      (Quiet() ==> now <= was) && (Idle() ==> now == was)
    }

    /** While object `guard` exists, the other controllers do not start `w`. */
    ghost predicate Shuns(w: Key, guard: Key) {
      forall n, s, ws :: guard in s && w in env(n, s, ws) ==> w in ws
    }

    /** The workloads after the environment's next move: whatever it wants, less those nothing may spawn. */
    function Moved(): set<Key>
      reads this
    {
      set w | w in env(calls, store, workloads) && (w in workloads || Spawned(store, w))
    }

    method Drifts()
      modifies this`workloads
      ensures workloads == old(Moved())
      ensures Drift(old(Now()), Now())
      ensures Calm(old(workloads), workloads)
    {
      workloads := Moved();
    }

    method Get(k: Key) returns (r: Reply)
      modifies this
      ensures store == old(store) && workloads == old(Moved()) && Drift(old(Now()), Now())
      ensures log == old(log) + [Step(Now(), Read, Now())]
      ensures r.Found? ==> k in store && r.obj == store[k]
      ensures r.NotFound? ==> k !in store
      ensures calls == old(calls) + 1 && (r.GetFailed? ==> faults(old(calls)) != Healthy)
      ensures Reliable() ==> !r.GetFailed?
      ensures Calm(old(workloads), workloads)
    {
      Drifts();
      log := log + [Step(Now(), Read, Now())];
      r := if faults(calls) != Healthy then GetFailed else if k in store then Found(store[k]) else NotFound;
      calls := calls + 1;
    }

    /** A Get call whose result is looked at for its status. */
    method GetStatus(k: Key) returns (r: Reply, now: Shown)
      modifies this
      ensures store == old(store) && workloads == old(Moved()) && Drift(old(Now()), Now())
      ensures log == old(log) + [Step(Now(), Read, Now())]
      ensures r.Found? ==> k in store
      ensures Reliable() && k in store ==> r.Found?
      ensures now == shown(old(calls), k)
    {
      now := shown(calls, k);
      r := Get(k);
    }

    /** A List call for the deployments, `k` among them if others run it: has it ready replicas? */
    method SeesReady(k: Key) returns (ok: bool, ready: bool)
      modifies this
      ensures store == old(store) && workloads == old(Moved()) && Drift(old(Now()), Now())
      ensures log == old(log) + [Step(Now(), Read, Now())]
      ensures ok ==> (ready <==> shown(old(calls), k).replicas > 0)
      ensures Reliable() ==> ok
    {
      Drifts();
      log := log + [Step(Now(), Read, Now())];
      ok, ready := faults(calls) == Healthy, shown(calls, k).replicas > 0;
      calls := calls + 1;
    }

    method List(kind: Kind, ns: string, sel: Labels) returns (r: Listing)
      modifies this
      ensures store == old(store) && workloads == old(Moved()) && Drift(old(Now()), Now())
      ensures log == old(log) + [Step(Now(), Read, Now())]
      ensures r.Listed? ==> r.items == Selected(store, kind, ns, sel) && Enumerates(r.order, r.items)
      ensures Reliable() ==> r.Listed?
      ensures Calm(old(workloads), workloads)
    {
      Drifts();
      log := log + [Step(Now(), Read, Now())];
      var items := Selected(store, kind, ns, sel);
      var order := Enumerate(items);
      r := if faults(calls) != Healthy then ListFailed else Listed(order, items);
      calls := calls + 1;
    }

    method ListAnywhere(kind: Kind, sel: Labels) returns (r: Listing)
      modifies this
      ensures store == old(store) && workloads == old(Moved()) && Drift(old(Now()), Now())
      ensures log == old(log) + [Step(Now(), Read, Now())]
      ensures r.Listed? ==> r.items == SelectedAnywhere(store, kind, sel) && Enumerates(r.order, r.items)
      ensures Reliable() ==> r.Listed?
      ensures Calm(old(workloads), workloads)
    {
      Drifts();
      log := log + [Step(Now(), Read, Now())];
      var items := SelectedAnywhere(store, kind, sel);
      var order := Enumerate(items);
      r := if faults(calls) != Healthy then ListFailed else Listed(order, items);
      calls := calls + 1;
    }

    /** A List call for the workload kinds: is `w` among the results? */
    method SeesWorkload(w: Key) returns (ok: bool, found: bool)
      modifies this
      ensures store == old(store) && workloads == old(Moved()) && Drift(old(Now()), Now())
      ensures log == old(log) + [Step(Now(), Read, Now())]
      ensures ok ==> (found <==> w in workloads)
      ensures Reliable() ==> ok
      ensures Calm(old(workloads), workloads)
    {
      Drifts();
      log := log + [Step(Now(), Read, Now())];
      ok, found := faults(calls) == Healthy, w in workloads;
      calls := calls + 1;
    }

    method Delete(k: Key) returns (r: Ack)
      modifies this
      ensures store == old(store) || store == old(store) - {k}
      ensures workloads == old(Moved()) && Drift(old(Now()), Now())
      ensures log == old(log) + [Step(Snapshot(old(store), workloads), Del(k), Now())]
      ensures r.Done? ==> k in old(store) && k !in store
      ensures r.Missing? ==> k !in old(store)
      ensures Reliable() ==> r == if k in old(store) then Done else Missing
      ensures Calm(old(workloads), workloads)
    {
      Drifts();
      ghost var pre := Now();
      r := if faults(calls) != Healthy then Failed else if k in store then Done else Missing;
      if faults(calls) != Rejected {
        store := store - {k};
      }
      log := log + [Step(pre, Del(k), Now())];
      calls := calls + 1;
    }

    /** controllerutil.CreateOrUpdate: `mutate` is applied to the stored object, or to a blank one. */
    method CreateOrUpdate(k: Key, mutate: Obj -> Obj) returns (ok: bool)
      modifies this
      ensures store == old(store) || store == old(store)[k := Mutated(old(store), k, mutate)]
      ensures ok ==> store == old(store)[k := Mutated(old(store), k, mutate)]
      ensures workloads == old(Moved()) && Drift(old(Now()), Snapshot(old(store), workloads))
      ensures log == old(log) + [Step(Snapshot(old(store), workloads), Put(k), Now())]
      ensures Reliable() ==> ok
      ensures Calm(old(workloads), workloads)
    {
      ok := CreateOrUpdateFrom(k, Blank, mutate);
    }

    /** The same for an object that is created with more than a name, such as labels. */
    method CreateOrUpdateFrom(k: Key, template: Obj, mutate: Obj -> Obj) returns (ok: bool)
      modifies this
      ensures store == old(store) || store == old(store)[k := mutate(if k in old(store) then old(store)[k] else template)]
      ensures ok ==> store == old(store)[k := mutate(if k in old(store) then old(store)[k] else template)]
      ensures workloads == old(Moved()) && Drift(old(Now()), Snapshot(old(store), workloads))
      ensures log == old(log) + [Step(Snapshot(old(store), workloads), Put(k), Now())]
      ensures Reliable() ==> ok
      ensures Calm(old(workloads), workloads)
    {
      Drifts();
      ghost var pre := Now();
      ok := faults(calls) == Healthy;
      if faults(calls) != Rejected {
        store := store[k := mutate(if k in store then store[k] else template)];
      }
      log := log + [Step(pre, Put(k), Now())];
      calls := calls + 1;
    }
  }

  function Mutated(s: Store, k: Key, mutate: Obj -> Obj): Obj {
    mutate(if k in s then s[k] else Blank)
  }

  /** The results of a List call in some order. */
  method Enumerate(items: Store) returns (order: seq<Key>)
    ensures Enumerates(order, items)
  {
    order := [];
    var rest := items.Keys;
    while rest != {}
      invariant rest <= items.Keys
      invariant forall k :: k in order <==> k in items && k !in rest
      invariant forall i, j :: 0 <= i < j < |order| ==> order[i] != order[j]
      decreases rest
    {
      var k :| k in rest;
      order := order + [k];
      rest := rest - {k};
    }
  }
}
