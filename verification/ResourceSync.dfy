/**
 Prometheus rules and pod monitors: everything of the kind in the namespace that is not requested is
 deleted, then every requested file is fetched and written.
 */
module ResourceSync {
  import opened Kube
  import opened Observability
  import opened SyncEngine
  import opened Collectors

  // ---------- The objects written ----------

  const IdLabel := "observability"

  /** `existing` wins except where `requested` speaks; a nil `existing` is None. */
  function MergeLabels(requested: Labels, existing: Option<Labels>): Labels {
    if existing.None? then requested else existing.value + requested
  }

  /** Every rule of every group carries the index id, and otherwise the labels it had. */
  function InjectId(groups: seq<seq<Labels>>, id: string): (r: seq<seq<Labels>>) {
    seq(|groups|, i requires 0 <= i < |groups| =>
      seq(|groups[i]|, j requires 0 <= j < |groups[i]| => groups[i][j][IdLabel := id]))
  }

  /** One label is set to the id, the others are as they were. */
  ghost predicate Relabelled(before: Labels, id: string, after: Labels) {
    && after.Keys == before.Keys + {"observability"} && after["observability"] == id
    && forall l :: l in before && l != "observability" ==> after[l] == before[l]
  }

  /** The same groups with the same rules, each of them relabelled. */
  ghost predicate Injected(groups: seq<seq<Labels>>, id: string, r: seq<seq<Labels>>) {
    && |r| == |groups|
    && (forall g :: 0 <= g < |groups| ==> |r[g]| == |groups[g]|)
    && (forall g, j :: 0 <= g < |groups| && 0 <= j < |groups[g]| ==> Relabelled(groups[g][j], id, r[g][j]))
  }

  lemma InjectIdSound(groups: seq<seq<Labels>>, id: string)
    ensures Injected(groups, id, InjectId(groups, id))
  {
    var r := InjectId(groups, id);
    forall g, j | 0 <= g < |groups| && 0 <= j < |groups[g]| ensures Relabelled(groups[g][j], id, r[g][j]) {
      assert r[g][j] == groups[g][j][IdLabel := id];
    }
  }

  method InjectIdLabel(groups: seq<seq<Labels>>, id: string) returns (r: seq<seq<Labels>>)
    ensures r == InjectId(groups, id) && Injected(groups, id, r)
  {
    InjectIdSound(groups, id);
    r := groups;
    for i := 0 to |groups|
      invariant |r| == |groups|
      invariant forall m :: 0 <= m < i ==> r[m] == InjectId(groups, id)[m]
      invariant forall m :: i <= m < |groups| ==> r[m] == groups[m]
    {
      for j := 0 to |groups[i]|
        invariant |r| == |groups| && |r[i]| == |groups[i]|
        invariant forall m :: 0 <= m < |groups| && m != i ==> r[m] == if m < i then InjectId(groups, id)[m] else groups[m]
        invariant forall m :: 0 <= m < |groups[i]| ==> r[i][m] == if m < j then groups[i][m][IdLabel := id] else groups[i][m]
      {
        r := r[i := r[i][j := r[i][j][IdLabel := id]]];
      }
      assert r[i] == InjectId(groups, id)[i];
    }
  }

  /** A fetched and parsed file: None when the download or the parse fails. */
  type Fetch = (string, string, string) -> Option<Obj>

  function RuleObject(fetch: Fetch): ResourceInfo -> Option<Obj> {
    (info: ResourceInfo) =>
      match fetch(info.url, info.tag, info.accessToken)
      case None => None
      case Some(o) => Some(Obj(MergeLabels(ManagedBy, Some(o.labels)), o.data, InjectId(o.groups, info.id)))
  }

  function MonitorObject(fetch: Fetch): ResourceInfo -> Option<Obj> {
    (info: ResourceInfo) =>
      match fetch(info.url, info.tag, info.accessToken)
      case None => None
      case Some(o) => Some(o.(labels := MergeLabels(ManagedBy, Some(o.labels))))
  }

  /** The labels of a file's object and the one that marks it as managed. */
  ghost predicate Managed(before: Labels, after: Labels) {
    && after.Keys == before.Keys + {"managed-by"} && after["managed-by"] == "observability-operator"
    && forall l :: l in before && l != "managed-by" ==> after[l] == before[l]
  }

  lemma MergedIsManaged(labels: Labels)
    ensures Managed(labels, MergeLabels(ManagedBy, Some(labels)))
  {
  }

  /** The rules of a file as written under the id of an index: everything is as fetched but for the two labels. */
  ghost predicate RulesOf(file: Obj, id: string, o: Obj) {
    Managed(file.labels, o.labels) && o.data == file.data && Injected(file.groups, id, o.groups)
  }

  /** What is written for a rule file is what was fetched, and it fails exactly if that does. */
  lemma RuleAsFetched(fetch: Fetch, info: ResourceInfo)
    ensures RuleObject(fetch)(info).Some? <==> fetch(info.url, info.tag, info.accessToken).Some?
    ensures RuleObject(fetch)(info).Some? ==>
      RulesOf(fetch(info.url, info.tag, info.accessToken).value, info.id, RuleObject(fetch)(info).value)
  {
    var raw := fetch(info.url, info.tag, info.accessToken);
    if raw.Some? {
      MergedIsManaged(raw.value.labels);
      InjectIdSound(raw.value.groups, info.id);
    }
  }

  /** And for a pod monitor, but for the one label. */
  lemma MonitorAsFetched(fetch: Fetch, info: ResourceInfo)
    ensures MonitorObject(fetch)(info).Some? <==> fetch(info.url, info.tag, info.accessToken).Some?
    ensures MonitorObject(fetch)(info).Some? ==>
      var file, o := fetch(info.url, info.tag, info.accessToken).value, MonitorObject(fetch)(info).value;
      Managed(file.labels, o.labels) && o.data == file.data && o.groups == file.groups
  {
    var raw := fetch(info.url, info.tag, info.accessToken);
    if raw.Some? { MergedIsManaged(raw.value.labels); }
  }

  // ---------- What a sync aims for ----------

  predicate Ours(k: Key, kind: Kind, ns: string) {
    k.kind == kind && k.ns == ns
  }

  function Names(infos: seq<ResourceInfo>): set<string> {
    set i | 0 <= i < |infos| :: infos[i].name
  }

  ghost predicate SameElsewhere(a: Store, b: Store, kind: Kind, ns: string) {
    forall k :: !Ours(k, kind, ns) ==> (k in a <==> k in b) && (k in a && k in b ==> a[k] == b[k])
  }

  ghost predicate OnlyRequested(s: Store, kind: Kind, ns: string, names: set<string>) {
    forall k :: k in s && Ours(k, kind, ns) ==> k.name in names
  }

  ghost predicate Written(s: Store, kind: Kind, ns: string, info: ResourceInfo, desired: ResourceInfo -> Option<Obj>) {
    var k := Key(kind, ns, info.name);
    k in s && desired(info) == Some(s[k])
  }

  /** Every file can be fetched and parsed. */
  ghost predicate Available(infos: seq<ResourceInfo>, desired: ResourceInfo -> Option<Obj>) {
    forall i :: 0 <= i < |infos| ==> desired(infos[i]).Some?
  }

  ghost predicate AllWritten(s: Store, kind: Kind, ns: string, infos: seq<ResourceInfo>, desired: ResourceInfo -> Option<Obj>) {
    forall i :: 0 <= i < |infos| ==> Written(s, kind, ns, infos[i], desired)
  }

  /** The namespace holds exactly the requested objects, as requested. */
  ghost predicate InSync(s: Store, kind: Kind, ns: string, infos: seq<ResourceInfo>, desired: ResourceInfo -> Option<Obj>) {
    OnlyRequested(s, kind, ns, Names(infos)) && AllWritten(s, kind, ns, infos, desired)
  }

  lemma RequestedAs(s: Store, kind: Kind, ns: string, infos: seq<ResourceInfo>, desired: ResourceInfo -> Option<Obj>, name: string) returns (info: ResourceInfo)
    requires InSync(s, kind, ns, infos, desired) && Key(kind, ns, name) in s
    ensures info in infos && info.name == name && desired(info) == Some(s[Key(kind, ns, name)])
  {
    assert Ours(Key(kind, ns, name), kind, ns);
    var j :| 0 <= j < |infos| && infos[j].name == name;
    info := infos[j];
    assert Written(s, kind, ns, info, desired);
  }

  /** What a sync writes: labelled objects of one kind and namespace. */
  function FileMark(kind: Kind, ns: string): (Key, Obj) -> bool {
    (k: Key, o: Obj) => Ours(k, kind, ns) && Matches(o, ManagedBy)
  }

  ghost predicate Labelled(desired: ResourceInfo -> Option<Obj>) {
    forall info :: desired(info).Some? ==> Matches(desired(info).value, ManagedBy)
  }

  lemma FilesLabelled(fetch: Fetch)
    ensures Labelled(RuleObject(fetch)) && Labelled(MonitorObject(fetch))
  {
    forall info | RuleObject(fetch)(info).Some? ensures Matches(RuleObject(fetch)(info).value, ManagedBy) {
      assert RuleObject(fetch)(info).value.labels == fetch(info.url, info.tag, info.accessToken).value.labels + ManagedBy;
    }
    forall info | MonitorObject(fetch)(info).Some? ensures Matches(MonitorObject(fetch)(info).value, ManagedBy) {
      assert MonitorObject(fetch)(info).value.labels == fetch(info.url, info.tag, info.accessToken).value.labels + ManagedBy;
    }
  }

  /** Nothing elsewhere is touched, nothing requested goes missing, and what is written is labelled. */
  ghost predicate Safe(a: Store, b: Store, kind: Kind, ns: string, names: set<string>) {
    && SameElsewhere(a, b, kind, ns)
    && Adds(a, b, FileMark(kind, ns))
    && (forall k :: k in a && Ours(k, kind, ns) && k.name in names ==> k in b)
  }

  ghost predicate AllSafe(log: seq<Step>, n: nat, a: Store, kind: Kind, ns: string, names: set<string>) {
    forall i :: n <= i < |log| ==> Safe(a, log[i].post.store, kind, ns, names)
  }

  // ---------- The delete half ----------

  function IsRequested(infos: seq<ResourceInfo>): string -> Verdict {
    name => if name in Names(infos) then Keep else Drop
  }

  function Unrequested(s: Store, kind: Kind, ns: string, infos: seq<ResourceInfo>): set<Key> {
    Droppable(Selected(s, kind, ns, map[]), IsRequested(infos))
  }

  lemma TrimmedIsSafe(a: Store, b: Store, kind: Kind, ns: string, infos: seq<ResourceInfo>)
    requires Trimmed(a, b, Unrequested(a, kind, ns, infos))
    ensures Safe(a, b, kind, ns, Names(infos))
    ensures OnlyRequested(a, kind, ns, Names(infos)) ==> a == b
  {
    if OnlyRequested(a, kind, ns, Names(infos)) {
      assert Unrequested(a, kind, ns, infos) == {};
      assert a.Keys == b.Keys;
    }
  }

  lemma AllRequestedRemain(a: Store, b: Store, kind: Kind, ns: string, infos: seq<ResourceInfo>)
    requires b == a - Unrequested(a, kind, ns, infos)
    ensures OnlyRequested(b, kind, ns, Names(infos))
  {
    forall k | k in b && Ours(k, kind, ns) ensures k.name in Names(infos) {
      assert Matches(a[k], map[]);
    }
  }

  method DeleteUnrequestedResources(c: Cluster, kind: Kind, ns: string, infos: seq<ResourceInfo>) returns (ok: bool)
    modifies c
    ensures old(c.log) <= c.log
    ensures AllTrimmed(c.log, |old(c.log)|, old(c.store), Unrequested(old(c.store), kind, ns, infos))
    ensures Trimmed(old(c.store), c.store, Unrequested(old(c.store), kind, ns, infos))
    ensures ok ==> c.store == old(c.store) - Unrequested(old(c.store), kind, ns, infos)
    ensures c.Reliable() ==> ok
  {
    var out := DeleteUnrequested(c, kind, ns, IsRequested(infos));
    ok := out.Completed?;
  }

  // ---------- The create half ----------

  /** The store after the files of `infos` have been written one by one. */
  function PutAll(s: Store, kind: Kind, ns: string, infos: seq<ResourceInfo>, desired: ResourceInfo -> Option<Obj>): Store {
    if infos == [] then s
    else
      var t, info := PutAll(s, kind, ns, infos[..|infos| - 1], desired), infos[|infos| - 1];
      if desired(info).None? then t else t[Key(kind, ns, info.name) := desired(info).value]
  }

  ghost predicate AllPartial(log: seq<Step>, n: nat, s: Store, kind: Kind, ns: string, infos: seq<ResourceInfo>, desired: ResourceInfo -> Option<Obj>) {
    forall i :: n <= i < |log| ==> Partial(log[i].post.store, s, kind, ns, infos, desired)
  }

  ghost predicate Partial(t: Store, s: Store, kind: Kind, ns: string, infos: seq<ResourceInfo>, desired: ResourceInfo -> Option<Obj>) {
    exists j :: 0 <= j <= |infos| && t == PutAll(s, kind, ns, infos[..j], desired)
  }

  method CreateRequestedResources(c: Cluster, kind: Kind, ns: string, infos: seq<ResourceInfo>, desired: ResourceInfo -> Option<Obj>)
    returns (ok: bool)
    modifies c
    ensures old(c.log) <= c.log
    ensures AllPartial(c.log, |old(c.log)|, old(c.store), kind, ns, infos, desired)
    ensures Partial(c.store, old(c.store), kind, ns, infos, desired)
    ensures ok ==> c.store == PutAll(old(c.store), kind, ns, infos, desired)
    ensures ok ==> Available(infos, desired)
    ensures c.Reliable() && Available(infos, desired) ==> ok
  {
    ok := true;
    assert infos[..0] == [];
    for i := 0 to |infos|
      invariant old(c.log) <= c.log && ok
      invariant AllPartial(c.log, |old(c.log)|, old(c.store), kind, ns, infos, desired)
      invariant c.store == PutAll(old(c.store), kind, ns, infos[..i], desired)
      invariant forall j :: 0 <= j < i ==> desired(infos[j]).Some?
    {
      var file := desired(infos[i]);
      ok := file.Some?;
      if !ok { break; }
      ghost var s := c.store;
      ok := c.CreateOrUpdate(Key(kind, ns, infos[i].name), (_: Obj) => file.value);
      OneMorePut(old(c.store), s, c.store, kind, ns, infos, desired, i);
      if !ok { break; }
    }
    assert infos[..|infos|] == infos;
  }

  lemma OneMorePut(s: Store, t: Store, u: Store, kind: Kind, ns: string, infos: seq<ResourceInfo>, desired: ResourceInfo -> Option<Obj>, i: nat)
    requires i < |infos| && t == PutAll(s, kind, ns, infos[..i], desired) && desired(infos[i]).Some?
    requires u == t || u == t[Key(kind, ns, infos[i].name) := desired(infos[i]).value]
    ensures Partial(u, s, kind, ns, infos, desired)
    ensures PutAll(s, kind, ns, infos[..i + 1], desired) == t[Key(kind, ns, infos[i].name) := desired(infos[i]).value]
  {
    assert infos[..i + 1][..i] == infos[..i];
    assert u == PutAll(s, kind, ns, infos[..if u == t then i else i + 1], desired);
  }

  lemma PutElsewhere(s: Store, t: Store, kind: Kind, ns: string, k: Key, o: Obj)
    requires SameElsewhere(s, t, kind, ns) && Ours(k, kind, ns)
    ensures SameElsewhere(s, t[k := o], kind, ns)
  {
  }

  lemma PutIsSafe(s: Store, t: Store, kind: Kind, ns: string, name: string, o: Obj, names: set<string>)
    requires Safe(s, t, kind, ns, names) && name in names && Matches(o, ManagedBy)
    ensures Safe(s, t[Key(kind, ns, name) := o], kind, ns, names)
    ensures OnlyRequested(t, kind, ns, names) ==> OnlyRequested(t[Key(kind, ns, name) := o], kind, ns, names)
  {
    var k := Key(kind, ns, name);
    AddsPut(s, t, k, o, FileMark(kind, ns));
    PutElsewhere(s, t, kind, ns, k, o);
  }

  lemma {:induction false} PutAllSafe(s: Store, kind: Kind, ns: string, infos: seq<ResourceInfo>, desired: ResourceInfo -> Option<Obj>, names: set<string>)
    requires Names(infos) <= names && Labelled(desired)
    ensures Safe(s, PutAll(s, kind, ns, infos, desired), kind, ns, names)
    ensures OnlyRequested(s, kind, ns, names) ==> OnlyRequested(PutAll(s, kind, ns, infos, desired), kind, ns, names)
  {
    if infos != [] {
      var init, last := infos[..|infos| - 1], infos[|infos| - 1];
      NamesOfInit(infos);
      PutAllSafe(s, kind, ns, init, desired, names);
      if desired(last).Some? {
        PutIsSafe(s, PutAll(s, kind, ns, init, desired), kind, ns, last.name, desired(last).value, names);
      }
    }
  }

  lemma NamesOfInit(infos: seq<ResourceInfo>)
    requires infos != []
    ensures Names(infos[..|infos| - 1]) <= Names(infos) && infos[|infos| - 1].name in Names(infos)
  {
  }

  lemma {:induction false} PutAllIdle(s: Store, kind: Kind, ns: string, infos: seq<ResourceInfo>, desired: ResourceInfo -> Option<Obj>)
    requires AllWritten(s, kind, ns, infos, desired)
    ensures PutAll(s, kind, ns, infos, desired) == s
  {
    if infos != [] {
      PutAllIdle(s, kind, ns, infos[..|infos| - 1], desired);
      assert Written(s, kind, ns, infos[|infos| - 1], desired);
    }
  }

  lemma {:induction false} PutAllWrites(s: Store, kind: Kind, ns: string, infos: seq<ResourceInfo>, desired: ResourceInfo -> Option<Obj>)
    requires NamesDistinct(infos) && Available(infos, desired)
    ensures AllWritten(PutAll(s, kind, ns, infos, desired), kind, ns, infos, desired)
  {
    if infos != [] {
      var init := infos[..|infos| - 1];
      PutAllWrites(s, kind, ns, init, desired);
      forall i | 0 <= i < |init| ensures Written(PutAll(s, kind, ns, infos, desired), kind, ns, infos[i], desired) {
        assert Written(PutAll(s, kind, ns, init, desired), kind, ns, init[i], desired);
      }
    }
  }

  lemma SafeTransitive(a: Store, b: Store, d: Store, kind: Kind, ns: string, names: set<string>)
    requires Safe(a, b, kind, ns, names) && Safe(b, d, kind, ns, names)
    ensures Safe(a, d, kind, ns, names)
  {
    AddsOn(a, b, d, FileMark(kind, ns));
  }

  lemma PartialIsSafe(t: Store, s: Store, kind: Kind, ns: string, infos: seq<ResourceInfo>, desired: ResourceInfo -> Option<Obj>)
    requires Partial(t, s, kind, ns, infos, desired) && Labelled(desired)
    ensures Safe(s, t, kind, ns, Names(infos))
    ensures AllWritten(s, kind, ns, infos, desired) ==> t == s
  {
    var j :| 0 <= j <= |infos| && t == PutAll(s, kind, ns, infos[..j], desired);
    PutAllSafe(s, kind, ns, infos[..j], desired, Names(infos));
    if AllWritten(s, kind, ns, infos, desired) {
      assert AllWritten(s, kind, ns, infos[..j], desired);
      PutAllIdle(s, kind, ns, infos[..j], desired);
    }
  }

  // ---------- Both halves ----------

  lemma DeletePhase(log: seq<Step>, n: nat, a: Store, b: Store, kind: Kind, ns: string, infos: seq<ResourceInfo>)
    requires AllTrimmed(log, n, a, Unrequested(a, kind, ns, infos)) && Trimmed(a, b, Unrequested(a, kind, ns, infos))
    ensures AllSafe(log, n, a, kind, ns, Names(infos)) && Safe(a, b, kind, ns, Names(infos))
    ensures OnlyRequested(a, kind, ns, Names(infos)) ==> b == a && Still(log, n, a)
  {
    TrimmedIsSafe(a, b, kind, ns, infos);
    forall i | n <= i < |log|
      ensures Safe(a, log[i].post.store, kind, ns, Names(infos))
      ensures OnlyRequested(a, kind, ns, Names(infos)) ==> log[i].post.store == a
    {
      TrimmedIsSafe(a, log[i].post.store, kind, ns, infos);
    }
  }

  lemma CreatePhase(log: seq<Step>, n: nat, a: Store, b: Store, d: Store, kind: Kind, ns: string, infos: seq<ResourceInfo>, desired: ResourceInfo -> Option<Obj>)
    requires Safe(a, b, kind, ns, Names(infos)) && Labelled(desired)
    requires AllPartial(log, n, b, kind, ns, infos, desired) && Partial(d, b, kind, ns, infos, desired)
    ensures AllSafe(log, n, a, kind, ns, Names(infos)) && Safe(a, d, kind, ns, Names(infos))
    ensures AllWritten(b, kind, ns, infos, desired) ==> d == b && Still(log, n, b)
  {
    PartialIsSafe(d, b, kind, ns, infos, desired);
    SafeTransitive(a, b, d, kind, ns, Names(infos));
    forall i | n <= i < |log|
      ensures Safe(a, log[i].post.store, kind, ns, Names(infos))
      ensures AllWritten(b, kind, ns, infos, desired) ==> log[i].post.store == b
    {
      assert Partial(log[i].post.store, b, kind, ns, infos, desired);
      PartialIsSafe(log[i].post.store, b, kind, ns, infos, desired);
      SafeTransitive(a, b, log[i].post.store, kind, ns, Names(infos));
    }
  }

  /** Delete then create: from any cluster to the requested one, and a second run changes nothing. Only a missing file stops a healthy run. */
  method SyncResources(c: Cluster, kind: Kind, ns: string, infos: seq<ResourceInfo>, desired: ResourceInfo -> Option<Obj>)
    returns (ok: bool)
    requires Labelled(desired)
    modifies c
    ensures old(c.log) <= c.log
    ensures AllSafe(c.log, |old(c.log)|, old(c.store), kind, ns, Names(infos))
    ensures Safe(old(c.store), c.store, kind, ns, Names(infos))
    ensures ok && NamesDistinct(infos) ==> InSync(c.store, kind, ns, infos, desired)
    ensures ok ==> Available(infos, desired)
    ensures c.Reliable() && Available(infos, desired) ==> ok
    ensures InSync(old(c.store), kind, ns, infos, desired) ==>
      c.store == old(c.store) && Still(c.log, |old(c.log)|, old(c.store))
  {
    ok := DeleteUnrequestedResources(c, kind, ns, infos);
    DeletePhase(c.log, |old(c.log)|, old(c.store), c.store, kind, ns, infos);
    if !ok { return; }
    ghost var trimmed, n := c.store, |c.log|;
    AllRequestedRemain(old(c.store), trimmed, kind, ns, infos);
    ok := CreateRequestedResources(c, kind, ns, infos, desired);
    CreatePhase(c.log, n, old(c.store), trimmed, c.store, kind, ns, infos, desired);
    if ok && NamesDistinct(infos) {
      PutAllWrites(trimmed, kind, ns, infos, desired);
      PutAllSafe(trimmed, kind, ns, infos, desired, Names(infos));
    }
  }
}
