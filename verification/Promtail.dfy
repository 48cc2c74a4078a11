/** Promtail: one DaemonSet and one rendered configuration per index that wants its logs shipped. */
module Promtail {
  import opened Kube
  import opened Observability
  import opened SyncEngine
  import Collectors
  import opened Stack
  import StringSort
  import TokenRefreshers

  function DaemonName(id: string): string { "promtail-" + id }

  function DaemonKey(cr: Cr, id: string): Key { Key(DaemonSet, cr.ns, DaemonName(id)) }

  function ConfigKey(cr: Cr, id: string): Key { Key(ConfigMap, cr.ns, "promtail-config-" + id) }

  /** GetObservatoriumConfig: the first observatorium with that id. */
  function FindObservatorium(os: seq<Observatorium>, id: string): Option<Observatorium> {
    if os == [] then None else if os[0].id == id then Some(os[0]) else FindObservatorium(os[1..], id)
  }

  lemma {:induction false} FoundFirst(os: seq<Observatorium>, id: string)
    ensures FindObservatorium(os, id).None? <==> forall j :: 0 <= j < |os| ==> os[j].id != id
    ensures forall j :: 0 <= j < |os| && os[j].id == id && (forall l :: 0 <= l < j ==> os[l].id != id) ==> FindObservatorium(os, id) == Some(os[j])
  {
    if os != [] && os[0].id != id {
      FoundFirst(os[1..], id);
      forall j | 0 <= j < |os| && os[j].id == id && (forall l :: 0 <= l < j ==> os[l].id != id) ensures FindObservatorium(os, id) == Some(os[j]) {
        assert os[1..][j - 1] == os[j];
      }
      if FindObservatorium(os, id).Some? {
        var j :| 0 <= j < |os[1..]| && os[1..][j].id == id;
        assert os[j + 1].id == id;
      }
    }
  }

  // ---------- The rendered configuration ----------

  datatype Target = Target(url: string, requireToken: bool)

  /** Where the logs go; None where GetPromtailConfig returns an error. */
  function LogTarget(cr: Cr, o: Observatorium): Option<Target> {
    if !o.IsValid() then None
    else if o.authType == AuthTypeDex then
      Some(Target(o.gateway + "/api/logs/v1/" + o.tenant + "/loki/api/v1/push", true))
    else if o.authType == AuthTypeRedhat then
      if o.sso.None? || !o.sso.value.HasLogs() then None
      else Some(Target("http://" + TokenRefreshers.RefresherName(o.id, TokenRefreshers.Logs) + "." + cr.ns + ".svc.cluster.local", false))
    else Some(Target("", false))
  }

  /** The text template, as a function of what is filled in: target, index id and namespace list. */
  type Template = (Target, string, string) -> string

  /** An erroneous observatorium renders as the empty string: the caller overwrites the error. */
  function Rendered(template: Template, cr: Cr, o: Observatorium, id: string, namespaces: seq<string>): string {
    match LogTarget(cr, o)
    case None => ""
    case Some(target) => template(target, id, Collectors.Join(StringSort.Sort(namespaces), ','))
  }

  /** The configuration, and so the hash the DaemonSet carries, does not depend on the order of the namespaces. */
  lemma RenderedCanonical(template: Template, cr: Cr, o: Observatorium, id: string, a: seq<string>, b: seq<string>)
    requires multiset(a) == multiset(b)
    ensures Rendered(template, cr, o, id, a) == Rendered(template, cr, o, id, b)
  {
    StringSort.SortCanonical(a, b);
  }

  function KeyNames(order: seq<Key>): (r: seq<string>)
    ensures |r| == |order| && forall i :: 0 <= i < |r| ==> r[i] == order[i].name
  {
    seq(|order|, i requires 0 <= i < |order| => order[i].name)
  }

  lemma {:induction false} DistinctCounts(xs: seq<string>)
    requires forall i, j :: 0 <= i < j < |xs| ==> xs[i] != xs[j]
    ensures multiset(xs) == multiset(set x | x in xs)
  {
    if xs != [] {
      var init, last := xs[..|xs| - 1], xs[|xs| - 1];
      DistinctCounts(init);
      assert xs == init + [last];
      assert (set x | x in xs) == (set x | x in init) + {last};
    }
  }

  /** Two listings of the same namespaces differ by a permutation. */
  lemma ListingsPermute(a: seq<Key>, b: seq<Key>, items: Store)
    requires Enumerates(a, items) && Enumerates(b, items)
    requires forall k :: k in items ==> k.kind == Namespace && k.ns == ""
    ensures multiset(KeyNames(a)) == multiset(KeyNames(b))
  {
    NamesOfListing(a, items);
    NamesOfListing(b, items);
    DistinctCounts(KeyNames(a));
    DistinctCounts(KeyNames(b));
  }

  lemma NamesOfListing(order: seq<Key>, items: Store)
    requires Enumerates(order, items)
    requires forall k :: k in items ==> k.kind == Namespace && k.ns == ""
    ensures forall i, j :: 0 <= i < j < |order| ==> KeyNames(order)[i] != KeyNames(order)[j]
    ensures (set x | x in KeyNames(order)) == (set k | k in items :: k.name)
  {
    forall i, j | 0 <= i < j < |order| ensures KeyNames(order)[i] != KeyNames(order)[j] {
      assert order[i] in items && order[j] in items;
    }
    forall x ensures x in KeyNames(order) <==> x in (set k | k in items :: k.name) {
      if x in KeyNames(order) {
        var i :| 0 <= i < |order| && KeyNames(order)[i] == x;
        assert order[i] in items;
      }
      if x in (set k | k in items :: k.name) {
        var k :| k in items && k.name == x;
        var i :| 0 <= i < |order| && order[i] == k;
        assert KeyNames(order)[i] == x;
      }
    }
  }

  // ---------- Which DaemonSets ----------

  /** Does this index ask for Promtail, and say where to? */
  predicate Asks(index: Index) {
    index.config.Some? && index.config.value.PromtailEnabled() && index.config.value.promtail.value.observatorium != ""
  }

  predicate Resolves(index: Index) {
    Asks(index) && FindObservatorium(index.config.value.observatoria, index.config.value.promtail.value.observatorium).Some?
  }

  /** The shouldExist closure: the first index with a matching name decides. */
  function IndexVerdict(indexes: seq<Index>, name: string): Verdict {
    if indexes == [] then Drop
    else if name == DaemonName(indexes[0].id) then if Asks(indexes[0]) then Keep else Drop
    else IndexVerdict(indexes[1..], name)
  }

  function DaemonVerdict(cr: Cr, indexes: seq<Index>): string -> Verdict {
    name => if PromtailOff(cr) then Drop else IndexVerdict(indexes, name)
  }

  function CreatedFor(cr: Cr, index: Index): set<string> {
    if PromtailOff(cr) || !Resolves(index) then {} else {DaemonName(index.id)}
  }

  function Created(cr: Cr, indexes: seq<Index>): set<string> {
    if indexes == [] then {} else Created(cr, indexes[..|indexes| - 1]) + CreatedFor(cr, indexes[|indexes| - 1])
  }

  function Daemons(s: Store, ns: string): set<string> {
    set k | k in s && k.kind == DaemonSet && k.ns == ns :: k.name
  }

  function Vouched(names: set<string>, cr: Cr, indexes: seq<Index>): set<string> {
    set n | n in names && DaemonVerdict(cr, indexes)(n) == Keep
  }

  lemma SameDaemonName(a: string, b: string)
    ensures DaemonName(a) == DaemonName(b) <==> a == b
  {
    assert DaemonName(a)[|"promtail-"|..] == a && DaemonName(b)[|"promtail-"|..] == b;
  }

  lemma {:induction false} CreatedIff(cr: Cr, indexes: seq<Index>, name: string)
    ensures name in Created(cr, indexes) <==> exists i :: 0 <= i < |indexes| && name in CreatedFor(cr, indexes[i])
  {
    if indexes != [] {
      var init := indexes[..|indexes| - 1];
      CreatedIff(cr, init, name);
      if name in Created(cr, init) {
        var i :| 0 <= i < |init| && name in CreatedFor(cr, init[i]);
        assert name in CreatedFor(cr, indexes[i]);
      }
      if i :| 0 <= i < |indexes| && name in CreatedFor(cr, indexes[i]) {
        if i < |init| { assert name in CreatedFor(cr, init[i]); }
      }
    }
  }

  /** The position of the first index with this id, or the length of the list. */
  function FirstWith(indexes: seq<Index>, id: string): (r: nat)
    ensures r <= |indexes| && (r < |indexes| ==> indexes[r].id == id)
    ensures forall i :: 0 <= i < r ==> indexes[i].id != id
    ensures forall i :: 0 <= i < |indexes| && indexes[i].id == id ==> r <= i
  {
    if indexes == [] || indexes[0].id == id then 0 else 1 + FirstWith(indexes[1..], id)
  }

  /** The closure goes by the first index with the id. */
  lemma {:induction false} FirstDecides(indexes: seq<Index>, id: string)
    ensures
      var first := FirstWith(indexes, id);
      IndexVerdict(indexes, DaemonName(id)) == if first < |indexes| && Asks(indexes[first]) then Keep else Drop
  {
    if indexes != [] {
      SameDaemonName(indexes[0].id, id);
      FirstDecides(indexes[1..], id);
    }
  }

  lemma {:induction false} KeptIsAsked(indexes: seq<Index>, name: string)
    requires IndexVerdict(indexes, name) == Keep
    ensures exists i :: 0 <= i < |indexes| && name == DaemonName(indexes[i].id)
  {
    if name != DaemonName(indexes[0].id) {
      KeptIsAsked(indexes[1..], name);
      var i :| 0 <= i < |indexes[1..]| && name == DaemonName(indexes[1..][i].id);
      assert indexes[i + 1] == indexes[1..][i];
    }
  }

  /** Whichever index creates a DaemonSet, the first index with its id asks for Promtail. */
  ghost predicate FirstsAsk(indexes: seq<Index>) {
    forall i :: 0 <= i < |indexes| && Resolves(indexes[i]) ==> Asks(indexes[FirstWith(indexes, indexes[i].id)])
  }

  /** The delete phase never removes a DaemonSet the create phase would make, exactly when Promtail is off or those firsts ask. */
  lemma NoFlappingIff(cr: Cr, indexes: seq<Index>)
    ensures (forall name :: name in Created(cr, indexes) ==> DaemonVerdict(cr, indexes)(name) == Keep) <==> PromtailOff(cr) || FirstsAsk(indexes)
  {
    if PromtailOff(cr) {
      forall name ensures name !in Created(cr, indexes) { CreatedIff(cr, indexes, name); }
    } else {
      if forall name :: name in Created(cr, indexes) ==> DaemonVerdict(cr, indexes)(name) == Keep {
        forall i | 0 <= i < |indexes| && Resolves(indexes[i]) ensures Asks(indexes[FirstWith(indexes, indexes[i].id)]) {
          var name := DaemonName(indexes[i].id);
          CreatedIff(cr, indexes, name);
          assert name in CreatedFor(cr, indexes[i]);
          FirstDecides(indexes, indexes[i].id);
        }
      }
      if FirstsAsk(indexes) {
        forall name | name in Created(cr, indexes) ensures DaemonVerdict(cr, indexes)(name) == Keep {
          CreatedIff(cr, indexes, name);
          var i :| 0 <= i < |indexes| && name in CreatedFor(cr, indexes[i]);
          FirstDecides(indexes, indexes[i].id);
        }
      }
    }
  }

  /** Among distinct ids every index is the first with its own: no sync ever deletes what it goes on to create. */
  lemma DistinctNeverFlaps(cr: Cr, indexes: seq<Index>)
    requires DistinctIds(indexes)
    ensures forall name :: name in Created(cr, indexes) ==> DaemonVerdict(cr, indexes)(name) == Keep
  {
    forall i | 0 <= i < |indexes| && Resolves(indexes[i]) ensures FirstWith(indexes, indexes[i].id) == i {
      var f := FirstWith(indexes, indexes[i].id);
      assert indexes[f].id == indexes[i].id;
    }
    assert FirstsAsk(indexes);
    NoFlappingIff(cr, indexes);
  }

  /** Two indexes that share an id, the first without Promtail: the second's DaemonSet is deleted and recreated forever. */
  lemma SharedIdFlaps(cr: Cr, quiet: Index, loud: Index)
    requires !PromtailOff(cr) && quiet.id == loud.id && !Asks(quiet) && Resolves(loud)
    ensures
      var name := DaemonName(loud.id);
      name in Created(cr, [quiet, loud]) && DaemonVerdict(cr, [quiet, loud])(name) == Drop
  {
    CreatedIff(cr, [quiet, loud], DaemonName(loud.id));
    assert DaemonName(loud.id) in CreatedFor(cr, [quiet, loud][1]);
  }

  /** Some index with this id creates the DaemonSet. */
  ghost predicate SomeResolves(indexes: seq<Index>, id: string) {
    exists j :: 0 <= j < |indexes| && indexes[j].id == id && Resolves(indexes[j])
  }

  /** Where the first index with an id asks for Promtail, some index with that id resolves its observatorium. */
  ghost predicate FirstsResolve(indexes: seq<Index>) {
    forall i :: 0 <= i < |indexes| && FirstWith(indexes, indexes[i].id) == i && Asks(indexes[i]) ==> SomeResolves(indexes, indexes[i].id)
  }

  lemma CreatedName(cr: Cr, indexes: seq<Index>, id: string)
    ensures DaemonName(id) in Created(cr, indexes) <==> !PromtailOff(cr) && SomeResolves(indexes, id)
  {
    CreatedIff(cr, indexes, DaemonName(id));
    forall j | 0 <= j < |indexes|
      ensures DaemonName(id) in CreatedFor(cr, indexes[j]) <==> !PromtailOff(cr) && Resolves(indexes[j]) && indexes[j].id == id
    {
      SameDaemonName(indexes[j].id, id);
    }
  }

  /**
   A completed sync leaves exactly the DaemonSets it would create, from every starting cluster, exactly when
   Promtail is off altogether or every first index that asks has one of its id that names an observatorium it has.
   */
  lemma ConvergesIff(cr: Cr, indexes: seq<Index>)
    ensures (forall start :: Vouched(start, cr, indexes) + Created(cr, indexes) == Created(cr, indexes))
      <==> PromtailOff(cr) || FirstsResolve(indexes)
  {
    if forall start :: Vouched(start, cr, indexes) + Created(cr, indexes) == Created(cr, indexes) {
      if !PromtailOff(cr) {
        forall i | 0 <= i < |indexes| && FirstWith(indexes, indexes[i].id) == i && Asks(indexes[i]) ensures SomeResolves(indexes, indexes[i].id) {
          FirstDecides(indexes, indexes[i].id);
          var name := DaemonName(indexes[i].id);
          assert Vouched({name}, cr, indexes) == {name};
          assert name in Created(cr, indexes);
          CreatedName(cr, indexes, indexes[i].id);
        }
      }
    }
    if PromtailOff(cr) || FirstsResolve(indexes) {
      forall start, name | name in Vouched(start, cr, indexes) ensures name in Created(cr, indexes) {
        KeptIsAsked(indexes, name);
        var i :| 0 <= i < |indexes| && name == DaemonName(indexes[i].id);
        FirstDecides(indexes, indexes[i].id);
        var f := FirstWith(indexes, indexes[i].id);
        assert FirstWith(indexes, indexes[f].id) == f;
        CreatedName(cr, indexes, indexes[i].id);
      }
    }
  }

  // ---------- One index ----------

  function Selector(index: Index): Labels {
    if index.config.Some? && index.config.value.PromtailEnabled() then index.config.value.promtail.value.namespaceSelector else map[]
  }

  ghost predicate SameNamespaces(a: Store, b: Store) {
    forall k: Key :: k.kind == Namespace ==> (k in a <==> k in b) && (k in a ==> a[k] == b[k])
  }

  /** The one text that every listing of the index's namespaces in `s` renders to. */
  ghost predicate IsConfig(text: string, s: Store, template: Template, cr: Cr, o: Observatorium, index: Index) {
    forall order :: Enumerates(order, Selected(s, Namespace, "", Selector(index))) ==>
      text == Rendered(template, cr, o, index.id, KeyNames(order))
  }

  lemma ListingDecides(s: Store, template: Template, cr: Cr, o: Observatorium, index: Index, order: seq<Key>)
    requires Enumerates(order, Selected(s, Namespace, "", Selector(index)))
    ensures IsConfig(Rendered(template, cr, o, index.id, KeyNames(order)), s, template, cr, o, index)
  {
    forall other | Enumerates(other, Selected(s, Namespace, "", Selector(index)))
      ensures Rendered(template, cr, o, index.id, KeyNames(order)) == Rendered(template, cr, o, index.id, KeyNames(other))
    {
      ListingsPermute(order, other, Selected(s, Namespace, "", Selector(index)));
      RenderedCanonical(template, cr, o, index.id, KeyNames(order), KeyNames(other));
    }
  }

  lemma ConfigFramed(text: string, a: Store, b: Store, template: Template, cr: Cr, o: Observatorium, index: Index)
    requires IsConfig(text, a, template, cr, o, index) && SameNamespaces(a, b)
    ensures IsConfig(text, b, template, cr, o, index)
  {
    assert Selected(a, Namespace, "", Selector(index)) == Selected(b, Namespace, "", Selector(index));
  }

  /** Every Promtail DaemonSet has the ConfigMap it mounts. */
  ghost predicate Configured(s: Store, cr: Cr) {
    forall id :: DaemonKey(cr, id) in s ==> ConfigKey(cr, id) in s
  }

  ghost predicate ChangedOnly(a: Store, b: Store, keys: set<Key>) {
    forall k :: k in b && (k !in a || a[k] != b[k]) ==> k in keys
  }

  lemma ChangedOnlyOn(a: Store, b: Store, d: Store, first: set<Key>, second: set<Key>)
    requires ChangedOnly(a, b, first) && ChangedOnly(b, d, second)
    ensures ChangedOnly(a, d, first + second)
  {
  }

  /** What a sync of the DaemonSets writes: labelled DaemonSets and ConfigMaps of one namespace. */
  function PromtailMark(ns: string): (Key, Obj) -> bool {
    (k: Key, o: Obj) => k.ns == ns && k.kind in {DaemonSet, ConfigMap} && Matches(o, ManagedBy)
  }

  /** What every step of the create phase keeps to. */
  ghost predicate Grew(a: Store, b: Store, cr: Cr, atMost: set<string>) {
    && (forall k :: k in a ==> k in b)
    && Adds(a, b, PromtailMark(cr.ns))
    && Daemons(b, cr.ns) <= Daemons(a, cr.ns) + atMost
    && (Configured(a, cr) ==> Configured(b, cr))
  }

  ghost predicate AllGrew(log: seq<Step>, n: nat, a: Store, cr: Cr, atMost: set<string>) {
    forall i :: n <= i < |log| ==> Grew(a, log[i].post.store, cr, atMost)
  }

  lemma GrewTransitive(a: Store, b: Store, d: Store, cr: Cr, atMost: set<string>)
    requires Grew(a, b, cr, atMost) && Grew(b, d, cr, atMost)
    ensures Grew(a, d, cr, atMost)
  {
  }

  lemma GrewOn(before: seq<Step>, log: seq<Step>, n: nat, a: Store, b: Store, d: Store, cr: Cr, part: set<string>, all: set<string>)
    requires before <= log && n <= |before| && part <= all
    requires AllGrew(before, n, a, cr, all) && Grew(a, b, cr, all)
    requires AllGrew(log, |before|, b, cr, part) && Grew(b, d, cr, part)
    ensures AllGrew(log, n, a, cr, all) && Grew(a, d, cr, all)
  {
    forall i | n <= i < |log| ensures Grew(a, log[i].post.store, cr, all) {
      if i < |before| {
        assert log[i] == before[i];
      } else {
        GrewTransitive(a, b, log[i].post.store, cr, all);
      }
    }
    GrewTransitive(a, b, d, cr, all);
  }

  function ConfigObj(text: string): Obj -> Obj {
    (x: Obj) => x.(labels := ManagedBy, data := x.data["promtail.yaml" := text])
  }

  /** `hash` stands for SHA-256 printed in hexadecimal. */
  function DaemonObj(hash: string -> string, text: string): Obj -> Obj {
    (x: Obj) => x.(labels := ManagedBy, data := map["CONFIG_HASH" := hash(text)])
  }

  lemma PutConfig(s: Store, cr: Cr, id: string, text: string)
    ensures
      var k := ConfigKey(cr, id);
      var t := s[k := Mutated(s, k, ConfigObj(text))];
      Grew(s, t, cr, {}) && SameNamespaces(s, t)
  {
    var k := ConfigKey(cr, id);
    var t := s[k := Mutated(s, k, ConfigObj(text))];
    assert Daemons(s, cr.ns) == Daemons(t, cr.ns);
  }

  lemma GrewNot(s: Store, cr: Cr, atMost: set<string>)
    ensures Grew(s, s, cr, atMost)
  {
  }

  lemma PutDaemon(s: Store, cr: Cr, id: string, hash: string -> string, text: string)
    requires ConfigKey(cr, id) in s
    ensures
      var k := DaemonKey(cr, id);
      var t := s[k := Mutated(s, k, DaemonObj(hash, text))];
      && Grew(s, t, cr, {DaemonName(id)}) && SameNamespaces(s, t) && ChangedOnly(s, t, {k})
      && ConfigKey(cr, id) in t && t[k].data == map["CONFIG_HASH" := hash(text)]
  {
    var k := DaemonKey(cr, id);
    var t := s[k := Mutated(s, k, DaemonObj(hash, text))];
    assert Daemons(t, cr.ns) == Daemons(s, cr.ns) + {DaemonName(id)};
    forall other: string ensures DaemonKey(cr, other) == k ==> other == id {
      SameDaemonName(other, id);
    }
  }

  /** The index's DaemonSet and ConfigMap are there and carry the one configuration and its hash. */
  ghost predicate Deployed(s: Store, cr: Cr, index: Index, template: Template, hash: string -> string)
    requires Resolves(index)
  {
    var o := FindObservatorium(index.config.value.observatoria, index.config.value.promtail.value.observatorium).value;
    && ConfigKey(cr, index.id) in s && DaemonKey(cr, index.id) in s
    && var data := s[ConfigKey(cr, index.id)].data;
    && "promtail.yaml" in data
    && IsConfig(data["promtail.yaml"], s, template, cr, o, index)
    && s[DaemonKey(cr, index.id)].data == map["CONFIG_HASH" := hash(data["promtail.yaml"])]
  }

  method ScrapeNamespaces(c: Cluster, index: Index) returns (ok: bool, order: seq<Key>)
    modifies c
    ensures old(c.log) <= c.log && c.store == old(c.store)
    ensures forall i :: |old(c.log)| <= i < |c.log| ==> c.log[i].post.store == c.store
    ensures ok && Asks(index) ==> Enumerates(order, Selected(c.store, Namespace, "", Selector(index)))
    ensures c.Reliable() ==> ok
  {
    if index.config.None? || !index.config.value.PromtailEnabled() { return true, []; }
    var listing := c.List(Namespace, "", Selector(index));
    if listing.ListFailed? { return false, []; }
    return true, listing.order;
  }

  method CreatePromtailConfigFor(c: Cluster, cr: Cr, index: Index, o: Observatorium, template: Template) returns (ok: bool, text: string)
    requires Asks(index)
    modifies c
    ensures old(c.log) <= c.log
    ensures AllGrew(c.log, |old(c.log)|, old(c.store), cr, {}) && Grew(old(c.store), c.store, cr, {})
    ensures SameNamespaces(old(c.store), c.store)
    ensures ChangedOnly(old(c.store), c.store, {ConfigKey(cr, index.id)})
    ensures ok ==>
      && IsConfig(text, c.store, template, cr, o, index)
      && ConfigKey(cr, index.id) in c.store
      && "promtail.yaml" in c.store[ConfigKey(cr, index.id)].data
      && c.store[ConfigKey(cr, index.id)].data["promtail.yaml"] == text
    ensures c.Reliable() ==> ok
  {
    var order;
    ok, order := ScrapeNamespaces(c, index);
    text := "";
    if ok {
      text := Rendered(template, cr, o, index.id, KeyNames(order));
      ListingDecides(c.store, template, cr, o, index, order);
      ok := WriteConfig(c, cr, index.id, text);
      ConfigFramed(text, old(c.store), c.store, template, cr, o, index);
    }
  }

  method WriteConfig(c: Cluster, cr: Cr, id: string, text: string) returns (ok: bool)
    modifies c
    ensures old(c.log) <= c.log
    ensures AllGrew(c.log, |old(c.log)|, old(c.store), cr, {}) && Grew(old(c.store), c.store, cr, {})
    ensures SameNamespaces(old(c.store), c.store) && ChangedOnly(old(c.store), c.store, {ConfigKey(cr, id)})
    ensures ok ==>
      && ConfigKey(cr, id) in c.store && "promtail.yaml" in c.store[ConfigKey(cr, id)].data
      && c.store[ConfigKey(cr, id)].data["promtail.yaml"] == text
    ensures c.Reliable() ==> ok
  {
    PutConfig(c.store, cr, id, text);
    ok := c.CreateOrUpdate(ConfigKey(cr, id), ConfigObj(text));
  }

  method CreatePromtailDaemonsetFor(c: Cluster, cr: Cr, index: Index, template: Template, hash: string -> string) returns (ok: bool)
    modifies c
    ensures old(c.log) <= c.log
    ensures AllGrew(c.log, |old(c.log)|, old(c.store), cr, CreatedFor(cr, index))
    ensures Grew(old(c.store), c.store, cr, CreatedFor(cr, index))
    ensures SameNamespaces(old(c.store), c.store)
    ensures ChangedOnly(old(c.store), c.store, {ConfigKey(cr, index.id), DaemonKey(cr, index.id)})
    ensures ok && !PromtailOff(cr) && Resolves(index) ==> Deployed(c.store, cr, index, template, hash)
    ensures c.Reliable() ==> ok
  {
    ok := true;
    if index.config.Some? && index.config.value.PromtailEnabled() && !PromtailOff(cr) {
      var wanted := index.config.value.promtail.value.observatorium;
      if wanted != "" {
        var o := FindObservatorium(index.config.value.observatoria, wanted);
        if o.Some? { ok := DeployPromtail(c, cr, index, o.value, template, hash); }
      }
    }
  }

  /** The ConfigMap, then the DaemonSet that mounts it. */
  lemma DeployedHere(a: Store, b: Store, cr: Cr, index: Index, o: Observatorium, template: Template, hash: string -> string, text: string)
    requires Resolves(index) && o == FindObservatorium(index.config.value.observatoria, index.config.value.promtail.value.observatorium).value
    requires IsConfig(text, a, template, cr, o, index) && SameNamespaces(a, b) && ChangedOnly(a, b, {DaemonKey(cr, index.id)})
    requires ConfigKey(cr, index.id) in a && ConfigKey(cr, index.id) in b && DaemonKey(cr, index.id) in b
    requires "promtail.yaml" in a[ConfigKey(cr, index.id)].data && a[ConfigKey(cr, index.id)].data["promtail.yaml"] == text
    requires b[DaemonKey(cr, index.id)].data == map["CONFIG_HASH" := hash(text)]
    ensures Deployed(b, cr, index, template, hash)
  {
    ConfigFramed(text, a, b, template, cr, o, index);
    assert b[ConfigKey(cr, index.id)] == a[ConfigKey(cr, index.id)];
  }

  method DeployPromtail(c: Cluster, cr: Cr, index: Index, o: Observatorium, template: Template, hash: string -> string) returns (ok: bool)
    requires Resolves(index) && o == FindObservatorium(index.config.value.observatoria, index.config.value.promtail.value.observatorium).value
    modifies c
    ensures old(c.log) <= c.log
    ensures AllGrew(c.log, |old(c.log)|, old(c.store), cr, {DaemonName(index.id)}) && Grew(old(c.store), c.store, cr, {DaemonName(index.id)})
    ensures SameNamespaces(old(c.store), c.store)
    ensures ChangedOnly(old(c.store), c.store, {ConfigKey(cr, index.id), DaemonKey(cr, index.id)})
    ensures ok ==> Deployed(c.store, cr, index, template, hash)
    ensures c.Reliable() ==> ok
  {
    var text;
    ok, text := CreatePromtailConfigFor(c, cr, index, o, template);
    if ok {
      ghost var configured := c.store;
      ok := CreateDaemonset(c, cr, index, text, hash, old(c.store), |old(c.log)|);
      ChangedOnlyOn(old(c.store), configured, c.store, {ConfigKey(cr, index.id)}, {DaemonKey(cr, index.id)});
      if ok { DeployedHere(configured, c.store, cr, index, o, template, hash, text); }
    }
  }

  /** The second CreateOrUpdate, in a pass over one index that began at `start`. */
  method CreateDaemonset(c: Cluster, cr: Cr, index: Index, text: string, hash: string -> string, ghost start: Store, ghost n: nat)
    returns (ok: bool)
    requires n <= |c.log| && ConfigKey(cr, index.id) in c.store
    requires AllGrew(c.log, n, start, cr, {DaemonName(index.id)}) && Grew(start, c.store, cr, {DaemonName(index.id)})
    modifies c
    ensures old(c.log) <= c.log
    ensures AllGrew(c.log, n, start, cr, {DaemonName(index.id)}) && Grew(start, c.store, cr, {DaemonName(index.id)})
    ensures SameNamespaces(old(c.store), c.store) && ChangedOnly(old(c.store), c.store, {DaemonKey(cr, index.id)})
    ensures ConfigKey(cr, index.id) in c.store
    ensures ok ==>
      DaemonKey(cr, index.id) in c.store && c.store[DaemonKey(cr, index.id)].data == map["CONFIG_HASH" := hash(text)]
    ensures c.Reliable() ==> ok
  {
    ghost var a, before := c.store, c.log;
    PutDaemon(a, cr, index.id, hash, text);
    GrewNot(a, cr, {DaemonName(index.id)});
    ok := c.CreateOrUpdate(DaemonKey(cr, index.id), DaemonObj(hash, text));
    assert Grew(a, c.store, cr, {DaemonName(index.id)});
    GrewOn(before, c.log, n, start, a, c.store, cr, {DaemonName(index.id)}, {DaemonName(index.id)});
  }

  // ---------- The whole sync ----------

  ghost predicate AllDeployed(s: Store, cr: Cr, indexes: seq<Index>, template: Template, hash: string -> string) {
    forall i :: 0 <= i < |indexes| && Resolves(indexes[i]) ==> Deployed(s, cr, indexes[i], template, hash)
  }

  lemma DeployedFramed(a: Store, b: Store, cr: Cr, index: Index, other: string, template: Template, hash: string -> string)
    requires Resolves(index) && Deployed(a, cr, index, template, hash) && index.id != other
    requires SameNamespaces(a, b) && forall k :: k in a ==> k in b
    requires ChangedOnly(a, b, {ConfigKey(cr, other), DaemonKey(cr, other)})
    ensures Deployed(b, cr, index, template, hash)
  {
    SameDaemonName(index.id, other);
    assert ConfigKey(cr, index.id).name[|"promtail-config-"|..] == index.id;
    assert ConfigKey(cr, other).name[|"promtail-config-"|..] == other;
    var o := FindObservatorium(index.config.value.observatoria, index.config.value.promtail.value.observatorium).value;
    ConfigFramed(a[ConfigKey(cr, index.id)].data["promtail.yaml"], a, b, template, cr, o, index);
  }

  lemma {:induction false} CreatedPrefix(cr: Cr, indexes: seq<Index>, i: nat)
    requires i < |indexes|
    ensures CreatedFor(cr, indexes[i]) <= Created(cr, indexes)
  {
    if i < |indexes| - 1 {
      CreatedPrefix(cr, indexes[..|indexes| - 1], i);
    }
  }

  /** How far the create loop has got. */
  ghost predicate Upto(s: Store, cr: Cr, indexes: seq<Index>, i: nat, template: Template, hash: string -> string)
    requires i <= |indexes|
  {
    && Created(cr, indexes[..i]) <= Daemons(s, cr.ns)
    && (!PromtailOff(cr) && DistinctIds(indexes) ==> AllDeployed(s, cr, indexes[..i], template, hash))
  }

  method CreateRequestedDaemonsets(c: Cluster, cr: Cr, indexes: seq<Index>, template: Template, hash: string -> string) returns (ok: bool)
    modifies c
    ensures old(c.log) <= c.log
    ensures AllGrew(c.log, |old(c.log)|, old(c.store), cr, Created(cr, indexes))
    ensures Grew(old(c.store), c.store, cr, Created(cr, indexes))
    ensures ok ==> Created(cr, indexes) <= Daemons(c.store, cr.ns)
    ensures ok && !PromtailOff(cr) && DistinctIds(indexes) ==> AllDeployed(c.store, cr, indexes, template, hash)
    ensures c.Reliable() ==> ok
  {
    ghost var start, n, all := c.store, |c.log|, Created(cr, indexes);
    ok := true;
    for i := 0 to |indexes|
      invariant old(c.log) <= c.log && ok
      invariant AllGrew(c.log, n, start, cr, all) && Grew(start, c.store, cr, all)
      invariant Upto(c.store, cr, indexes, i, template, hash)
    {
      ok := DeployNext(c, cr, indexes, i, template, hash, start, n);
      if !ok { break; }
    }
    assert indexes[..|indexes|] == indexes;
  }

  method DeployNext(c: Cluster, cr: Cr, indexes: seq<Index>, i: nat, template: Template, hash: string -> string, ghost start: Store, ghost n: nat)
    returns (ok: bool)
    requires i < |indexes| && n <= |c.log| && Upto(c.store, cr, indexes, i, template, hash)
    requires AllGrew(c.log, n, start, cr, Created(cr, indexes)) && Grew(start, c.store, cr, Created(cr, indexes))
    modifies c
    ensures old(c.log) <= c.log
    ensures AllGrew(c.log, n, start, cr, Created(cr, indexes)) && Grew(start, c.store, cr, Created(cr, indexes))
    ensures ok ==> Upto(c.store, cr, indexes, i + 1, template, hash)
    ensures c.Reliable() ==> ok
  {
    ghost var a, before := c.store, c.log;
    CreatedPrefix(cr, indexes, i);
    ok := CreatePromtailDaemonsetFor(c, cr, indexes[i], template, hash);
    GrewOn(before, c.log, n, start, a, c.store, cr, CreatedFor(cr, indexes[i]), Created(cr, indexes));
    if ok { StillDeployed(a, c.store, cr, indexes, i, template, hash); }
  }

  lemma StillDeployed(a: Store, b: Store, cr: Cr, indexes: seq<Index>, i: nat, template: Template, hash: string -> string)
    requires i < |indexes| && SameNamespaces(a, b) && forall k :: k in a ==> k in b
    requires ChangedOnly(a, b, {ConfigKey(cr, indexes[i].id), DaemonKey(cr, indexes[i].id)})
    requires !PromtailOff(cr) && Resolves(indexes[i]) ==> Deployed(b, cr, indexes[i], template, hash)
    requires Created(cr, indexes[..i]) <= Daemons(a, cr.ns)
    ensures Created(cr, indexes[..i + 1]) <= Daemons(b, cr.ns)
    ensures !PromtailOff(cr) && DistinctIds(indexes) && AllDeployed(a, cr, indexes[..i], template, hash) ==>
      AllDeployed(b, cr, indexes[..i + 1], template, hash)
  {
    assert indexes[..i + 1][..i] == indexes[..i];
    if !PromtailOff(cr) && Resolves(indexes[i]) {
      assert DaemonKey(cr, indexes[i].id) in b;
    }
    assert Daemons(a, cr.ns) <= Daemons(b, cr.ns);
    if !PromtailOff(cr) && DistinctIds(indexes) && AllDeployed(a, cr, indexes[..i], template, hash) {
      forall j | 0 <= j < i + 1 && Resolves(indexes[j]) ensures Deployed(b, cr, indexes[j], template, hash) {
        if j < i {
          assert Deployed(a, cr, indexes[..i][j], template, hash);
          DeployedFramed(a, b, cr, indexes[j], indexes[i].id, template, hash);
        }
      }
    }
  }

  /** Only DaemonSets and ConfigMaps of the namespace differ, only DaemonSets go, and what was written is labelled. */
  ghost predicate Framed(a: Store, b: Store, cr: Cr) {
    && Adds(a, b, PromtailMark(cr.ns))
    && forall k :: k in a && k !in b ==> k.ns == cr.ns && k.kind == DaemonSet
  }

  ghost predicate AllFramed(log: seq<Step>, n: nat, a: Store, cr: Cr) {
    forall i :: n <= i < |log| ==> Framed(a, log[i].post.store, cr)
  }

  /** Between `a` and `b` no DaemonSet the indexes ask for went away. */
  ghost predicate Steady(a: Store, b: Store, cr: Cr, wanted: set<string>) {
    wanted * Daemons(a, cr.ns) <= Daemons(b, cr.ns)
  }

  ghost predicate AllSteady(log: seq<Step>, n: nat, a: Store, cr: Cr, wanted: set<string>) {
    forall i :: n <= i < |log| ==> Steady(a, log[i].post.store, cr, wanted)
  }

  /** If the DaemonSets at `a` had their ConfigMaps, no call since left one without. */
  ghost predicate AllConfigured(log: seq<Step>, n: nat, a: Store, cr: Cr) {
    Configured(a, cr) ==> forall i :: n <= i < |log| ==> Configured(log[i].post.store, cr)
  }

  function Stale(s: Store, cr: Cr, indexes: seq<Index>): set<Key> {
    Droppable(Selected(s, DaemonSet, cr.ns, map[]), DaemonVerdict(cr, indexes))
  }

  lemma TrimmedFramed(a: Store, b: Store, cr: Cr, indexes: seq<Index>)
    requires Trimmed(a, b, Stale(a, cr, indexes))
    ensures Framed(a, b, cr)
  {
  }

  lemma GrownFramed(a: Store, b: Store, d: Store, cr: Cr, atMost: set<string>)
    requires Framed(a, b, cr) && Grew(b, d, cr, atMost)
    ensures Framed(a, d, cr)
  {
  }

  lemma StepsFramed(before: seq<Step>, log: seq<Step>, n: nat, a: Store, b: Store, d: Store, cr: Cr, indexes: seq<Index>)
    requires before <= log && n <= |before|
    requires AllTrimmed(before, n, a, Stale(a, cr, indexes)) && Trimmed(a, b, Stale(a, cr, indexes))
    requires AllGrew(log, |before|, b, cr, Created(cr, indexes)) && Grew(b, d, cr, Created(cr, indexes))
    ensures AllFramed(log, n, a, cr) && Framed(a, d, cr)
  {
    TrimmedFramed(a, b, cr, indexes);
    GrownFramed(a, b, d, cr, Created(cr, indexes));
    forall i | n <= i < |log| ensures Framed(a, log[i].post.store, cr) {
      if i < |before| {
        assert log[i] == before[i];
        TrimmedFramed(a, log[i].post.store, cr, indexes);
      } else {
        GrownFramed(a, b, log[i].post.store, cr, Created(cr, indexes));
      }
    }
  }

  lemma TrimmedSteady(a: Store, b: Store, cr: Cr, indexes: seq<Index>)
    requires (PromtailOff(cr) || FirstsAsk(indexes)) && Trimmed(a, b, Stale(a, cr, indexes))
    ensures Steady(a, b, cr, Created(cr, indexes))
  {
    NoFlappingIff(cr, indexes);
    forall name | name in Created(cr, indexes) && name in Daemons(a, cr.ns) ensures name in Daemons(b, cr.ns) {
      assert DaemonVerdict(cr, indexes)(name) == Keep;
      assert Key(DaemonSet, cr.ns, name) in b;
    }
  }

  lemma GrownSteady(a: Store, b: Store, d: Store, cr: Cr, wanted: set<string>, atMost: set<string>)
    requires Steady(a, b, cr, wanted) && Grew(b, d, cr, atMost)
    ensures Steady(a, d, cr, wanted)
  {
    assert Daemons(b, cr.ns) <= Daemons(d, cr.ns);
  }

  lemma StepsConfigured(before: seq<Step>, log: seq<Step>, n: nat, a: Store, b: Store, cr: Cr, indexes: seq<Index>)
    requires before <= log && n <= |before|
    requires AllTrimmed(before, n, a, Stale(a, cr, indexes)) && Trimmed(a, b, Stale(a, cr, indexes))
    requires AllGrew(log, |before|, b, cr, Created(cr, indexes))
    ensures AllConfigured(log, n, a, cr)
  {
    if Configured(a, cr) {
      TrimmedConfigured(a, b, cr, indexes);
      forall i | n <= i < |log| ensures Configured(log[i].post.store, cr) {
        if i < |before| {
          assert log[i] == before[i];
          TrimmedConfigured(a, log[i].post.store, cr, indexes);
        } else {
          assert Grew(b, log[i].post.store, cr, Created(cr, indexes));
        }
      }
    }
  }

  lemma TrimmedConfigured(a: Store, b: Store, cr: Cr, indexes: seq<Index>)
    requires Configured(a, cr) && Trimmed(a, b, Stale(a, cr, indexes))
    ensures Configured(b, cr)
  {
  }

  lemma AfterDelete(a: Store, cr: Cr, indexes: seq<Index>)
    ensures Daemons(a - Stale(a, cr, indexes), cr.ns) == Vouched(Daemons(a, cr.ns), cr, indexes)
  {
    var b := a - Stale(a, cr, indexes);
    forall name ensures name in Daemons(b, cr.ns) <==> name in Vouched(Daemons(a, cr.ns), cr, indexes) {
      var k := Key(DaemonSet, cr.ns, name);
      assert k in a ==> Matches(a[k], map[]);
      assert name in Daemons(b, cr.ns) <==> k in b;
      assert name in Daemons(a, cr.ns) <==> k in a;
      IndexVerdictTotal(indexes, name);
    }
  }

  lemma {:induction false} IndexVerdictTotal(indexes: seq<Index>, name: string)
    ensures IndexVerdict(indexes, name) != Panic
  {
    if indexes != [] {
      IndexVerdictTotal(indexes[1..], name);
    }
  }

  lemma StepsSteady(before: seq<Step>, log: seq<Step>, n: nat, a: Store, b: Store, cr: Cr, indexes: seq<Index>)
    requires before <= log && n <= |before| && (PromtailOff(cr) || FirstsAsk(indexes))
    requires AllTrimmed(before, n, a, Stale(a, cr, indexes)) && Trimmed(a, b, Stale(a, cr, indexes))
    requires AllGrew(log, |before|, b, cr, Created(cr, indexes))
    ensures AllSteady(log, n, a, cr, Created(cr, indexes))
  {
    TrimmedSteady(a, b, cr, indexes);
    forall i | n <= i < |log| ensures Steady(a, log[i].post.store, cr, Created(cr, indexes)) {
      if i < |before| {
        assert log[i] == before[i];
        TrimmedSteady(a, log[i].post.store, cr, indexes);
      } else {
        GrownSteady(a, b, log[i].post.store, cr, Created(cr, indexes), Created(cr, indexes));
      }
    }
  }

  /** deleteUnrequestedDaemonsets, then createPromtailDaemonsetFor every index. */
  method SyncDaemonsets(c: Cluster, cr: Cr, indexes: seq<Index>, template: Template, hash: string -> string) returns (ok: bool)
    modifies c
    ensures old(c.log) <= c.log
    ensures AllFramed(c.log, |old(c.log)|, old(c.store), cr) && Framed(old(c.store), c.store, cr)
    ensures AllConfigured(c.log, |old(c.log)|, old(c.store), cr)
    ensures PromtailOff(cr) || FirstsAsk(indexes) ==> AllSteady(c.log, |old(c.log)|, old(c.store), cr, Created(cr, indexes))
    ensures ok ==> Daemons(c.store, cr.ns) == Vouched(Daemons(old(c.store), cr.ns), cr, indexes) + Created(cr, indexes)
    ensures ok && !PromtailOff(cr) && DistinctIds(indexes) ==> AllDeployed(c.store, cr, indexes, template, hash)
    ensures c.Reliable() ==> ok
  {
    ghost var n := |c.log|;
    var out := DeleteUnrequested(c, DaemonSet, cr.ns, DaemonVerdict(cr, indexes));
    ghost var b, before := c.store, c.log;
    StepsFramed(before, before, n, old(c.store), b, b, cr, indexes);
    StepsConfigured(before, before, n, old(c.store), b, cr, indexes);
    if PromtailOff(cr) || FirstsAsk(indexes) {
      StepsSteady(before, before, n, old(c.store), b, cr, indexes);
    }
    if !out.Completed? {
      if c.Reliable() {
        var k :| k in Selected(old(c.store), DaemonSet, cr.ns, map[]) && DaemonVerdict(cr, indexes)(k.name) == Panic;
        IndexVerdictTotal(indexes, k.name);
      }
      return false;
    }
    AfterDelete(old(c.store), cr, indexes);
    ok := CreateRequestedDaemonsets(c, cr, indexes, template, hash);
    StepsFramed(before, c.log, n, old(c.store), b, c.store, cr, indexes);
    StepsConfigured(before, c.log, n, old(c.store), b, cr, indexes);
    if PromtailOff(cr) || FirstsAsk(indexes) {
      StepsSteady(before, c.log, n, old(c.store), b, cr, indexes);
    }
    assert Daemons(b, cr.ns) <= Daemons(c.store, cr.ns);
  }

  // ---------- What is wanted, by the settings alone ----------

  /** Promtail is enabled in the index and names an observatorium. */
  predicate NamesTarget(index: Index) {
    && index.config.Some? && index.config.value.promtail.Some? && index.config.value.promtail.value.enabled
    && index.config.value.promtail.value.observatorium != ""
  }

  /** It names one that the index has. */
  ghost predicate ShipsLogs(index: Index) {
    && NamesTarget(index)
    && exists j :: 0 <= j < |index.config.value.observatoria|
         && index.config.value.observatoria[j].id == index.config.value.promtail.value.observatorium
  }

  /** Neither the external sync nor the observatoria are switched off. */
  predicate SyncsLogs(cr: Cr) {
    cr.selfContained.Some? ==> cr.selfContained.value.disableRepoSync != Some(true) && cr.selfContained.value.disableObservatorium != Some(true)
  }

  /**
   A DaemonSet is created for exactly the ids of indexes that ship logs. One that exists is kept for exactly
   the ids whose first index has Promtail enabled and names an observatorium, whether or not it has it.
   */
  lemma WantedIff(cr: Cr, indexes: seq<Index>, id: string)
    ensures "promtail-" + id in Created(cr, indexes)
      <==> SyncsLogs(cr) && exists i :: 0 <= i < |indexes| && indexes[i].id == id && ShipsLogs(indexes[i])
    ensures DaemonVerdict(cr, indexes)("promtail-" + id) == Keep
      <==> SyncsLogs(cr) && exists i :: 0 <= i < |indexes| && indexes[i].id == id && NamesTarget(indexes[i]) && forall l :: 0 <= l < i ==> indexes[l].id != id
  {
    assert SyncsLogs(cr) <==> !PromtailOff(cr);
    CreatedName(cr, indexes, id);
    FirstDecides(indexes, id);
    forall i | 0 <= i < |indexes| ensures Resolves(indexes[i]) <==> ShipsLogs(indexes[i]) {
      if NamesTarget(indexes[i]) { FoundFirst(indexes[i].config.value.observatoria, indexes[i].config.value.promtail.value.observatorium); }
    }
  }

  /** In order, each once: the names of the namespaces that carry the selector's labels. */
  ghost predicate Picks(s: Store, selector: Labels, names: seq<string>) {
    && StringSort.Sorted(names)
    && (forall i, j :: 0 <= i < j < |names| ==> names[i] != names[j])
    && forall x :: x in names <==> Key(Namespace, "", x) in s && Matches(s[Key(Namespace, "", x)], selector)
  }

  /** The names can be had back from the text: split it at the commas. */
  ghost predicate Scraped(s: Store, selector: Labels, text: string) {
    exists names :: Picks(s, selector, names) && Recoverable(names, text)
  }

  ghost predicate Recoverable(names: seq<string>, text: string) {
    if names == [] then text == "" else (forall i :: 0 <= i < |names| ==> ',' !in names[i]) ==> Collectors.Split(text, ',') == names
  }

  lemma {:induction false} SomeListing(items: Store) returns (order: seq<Key>)
    ensures Enumerates(order, items)
    decreases |items|
  {
    order := [];
    if items != map[] {
      var k :| k in items;
      assert (items - {k}).Keys == items.Keys - {k};
      var rest := SomeListing(items - {k});
      order := rest + [k];
    }
  }

  lemma SortedNames(s: Store, selector: Labels, order: seq<Key>)
    requires Enumerates(order, Selected(s, Namespace, "", selector))
    ensures Picks(s, selector, StringSort.Sort(KeyNames(order)))
  {
    var names := KeyNames(order);
    NamesOfListing(order, Selected(s, Namespace, "", selector));
    SortedMembers(names);
    forall x ensures x in StringSort.Sort(names) <==> Key(Namespace, "", x) in s && Matches(s[Key(Namespace, "", x)], selector) {
      SelectedName(s, selector, x);
      assert x in names <==> x in (set y | y in names);
    }
  }

  lemma SortedMembers(xs: seq<string>)
    requires forall i, j :: 0 <= i < j < |xs| ==> xs[i] != xs[j]
    ensures StringSort.Sorted(StringSort.Sort(xs)) && forall x :: x in StringSort.Sort(xs) <==> x in xs
    ensures forall i, j :: 0 <= i < j < |StringSort.Sort(xs)| ==> StringSort.Sort(xs)[i] != StringSort.Sort(xs)[j]
  {
    var names := StringSort.Sort(xs);
    StringSort.SortSorts(xs);
    DistinctCounts(xs);
    forall x ensures x in names <==> x in xs {
      assert x in multiset(names) <==> x in multiset(xs);
    }
    forall i, j | 0 <= i < j < |names| ensures names[i] != names[j] {
      if names[i] == names[j] { CountedTwice(names, i, j); }
    }
  }

  lemma SelectedName(s: Store, selector: Labels, x: string)
    ensures x in (set k | k in Selected(s, Namespace, "", selector) :: k.name)
      <==> Key(Namespace, "", x) in s && Matches(s[Key(Namespace, "", x)], selector)
  {
    if Key(Namespace, "", x) in s && Matches(s[Key(Namespace, "", x)], selector) {
      assert Key(Namespace, "", x) in Selected(s, Namespace, "", selector);
    }
  }

  lemma JoinedNames(s: Store, selector: Labels, names: seq<string>)
    requires Picks(s, selector, names)
    ensures Scraped(s, selector, Collectors.Join(names, ','))
  {
    if names != [] && forall i :: 0 <= i < |names| ==> ',' !in names[i] { Collectors.SplitJoin(names, ','); }
    assert Recoverable(names, Collectors.Join(names, ','));
  }

  lemma CountedTwice(xs: seq<string>, i: nat, j: nat)
    requires i < j < |xs| && xs[i] == xs[j]
    ensures multiset(xs)[xs[i]] >= 2
  {
    assert xs == xs[..i] + [xs[i]] + xs[i + 1..j] + [xs[j]] + xs[j + 1..];
  }

  /** Where an observatorium's logs are pushed to: straight to a dex gateway, or through the logs refresher. */
  ghost predicate PushesTo(cr: Cr, o: Observatorium, target: Target) {
    && o.gateway != ""
    && (o.authType == "dex" ==> target == Target(o.gateway + "/api/logs/v1/" + o.tenant + "/loki/api/v1/push", true))
    && (o.authType == "redhat" ==>
          && o.sso.Some? && o.sso.value.url != "" && o.sso.value.realm != "" && o.sso.value.logsClient != "" && o.sso.value.logsSecret != ""
          && target == Target("http://token-refresher-logs-" + o.id + "." + cr.ns + ".svc.cluster.local", false))
    && (o.authType !in {"dex", "redhat"} ==> target == Target("", false))
  }

  /** The text pushes these namespaces' logs under this id, or is empty where nothing can be pushed to. */
  ghost predicate Ships(text: string, s: Store, template: Template, cr: Cr, o: Observatorium, id: string, selector: Labels) {
    || (text == "" && forall target :: !PushesTo(cr, o, target))
    || exists target, list :: PushesTo(cr, o, target) && Scraped(s, selector, list) && text == template(target, id, list)
  }

  lemma RefresherAddress(id: string, ns: string)
    ensures "http://" + TokenRefreshers.RefresherName(id, TokenRefreshers.Logs) + "." + ns + ".svc.cluster.local"
         == "http://token-refresher-logs-" + id + "." + ns + ".svc.cluster.local"
  {
    assert TokenRefreshers.RefresherName(id, TokenRefreshers.Logs) == "token-refresher-logs-" + id;
    assert "http://" + ("token-refresher-logs-" + id) == "http://token-refresher-logs-" + id;
  }

  lemma TargetPushes(cr: Cr, o: Observatorium, target: Target)
    ensures PushesTo(cr, o, target) <==> LogTarget(cr, o) == Some(target)
  {
    RefresherAddress(o.id, cr.ns);
  }

  lemma RenderedShips(text: string, s: Store, template: Template, cr: Cr, o: Observatorium, index: Index)
    requires IsConfig(text, s, template, cr, o, index)
    ensures Ships(text, s, template, cr, o, index.id, Selector(index))
  {
    var order := SomeListing(Selected(s, Namespace, "", Selector(index)));
    SortedNames(s, Selector(index), order);
    JoinedNames(s, Selector(index), StringSort.Sort(KeyNames(order)));
    assert text == Rendered(template, cr, o, index.id, KeyNames(order));
    forall target ensures PushesTo(cr, o, target) <==> LogTarget(cr, o) == Some(target) { TargetPushes(cr, o, target); }
  }

  /**
   After a completed sync, an index whose Promtail names its `j`th observatorium, none before it having that
   id, has a ConfigMap that pushes the logs of exactly the selected namespaces there, and a DaemonSet that
   carries the hash of that ConfigMap.
   */
  lemma LogsAreShipped(s: Store, cr: Cr, indexes: seq<Index>, template: Template, hash: string -> string, i: nat, j: nat)
    requires AllDeployed(s, cr, indexes, template, hash)
    requires i < |indexes| && indexes[i].config.Some? && indexes[i].config.value.promtail.Some? && indexes[i].config.value.promtail.value.enabled
    requires
      var cfg := indexes[i].config.value;
      && j < |cfg.observatoria| && cfg.observatoria[j].id == cfg.promtail.value.observatorium != ""
      && forall l :: 0 <= l < j ==> cfg.observatoria[l].id != cfg.observatoria[j].id
    ensures
      var cfg, id := indexes[i].config.value, indexes[i].id;
      var config, daemon := Key(ConfigMap, cr.ns, "promtail-config-" + id), Key(DaemonSet, cr.ns, "promtail-" + id);
      && config in s && "promtail.yaml" in s[config].data && daemon in s
      && Ships(s[config].data["promtail.yaml"], s, template, cr, cfg.observatoria[j], id, cfg.promtail.value.namespaceSelector)
      && s[daemon].data == map["CONFIG_HASH" := hash(s[config].data["promtail.yaml"])]
  {
    var cfg := indexes[i].config.value;
    var o := FindObservatorium(cfg.observatoria, cfg.promtail.value.observatorium);
    FoundFirst(cfg.observatoria, cfg.promtail.value.observatorium);
    assert o == Some(cfg.observatoria[j]);
    assert Resolves(indexes[i]) && Deployed(s, cr, indexes[i], template, hash);
    RenderedShips(s[ConfigKey(cr, indexes[i].id)].data["promtail.yaml"], s, template, cr, o.value, indexes[i]);
  }

  // ---------- Where the logs go ----------

  /**
   A redhat target is the address of a token refresher in the custom resource's namespace. The sync wants
   that refresher there exactly when the stack's observatoria are on, no OAuth2 secret takes the refreshers'
   place, and the refreshers live in that namespace.
   */
  lemma TargetIsRequestedIff(cr: Cr, oauth2: bool, parses: string -> bool, indexes: seq<Index>, i: nat, j: nat)
    requires i < |indexes| && indexes[i].config.Some? && indexes[i].config.value.PromtailEnabled()
    requires j < |indexes[i].config.value.observatoria|
    requires
      var o := indexes[i].config.value.observatoria[j];
      o.authType == AuthTypeRedhat && LogTarget(cr, o).Some? && parses(o.sso.value.url)
    ensures
      var name := TokenRefreshers.RefresherName(indexes[i].config.value.observatoria[j].id, TokenRefreshers.Logs);
      name in TokenRefreshers.Requested(cr, oauth2, parses, indexes) && cr.ns == cr.OperatorNs()
      <==> !cr.ObservatoriumDisabled() && !oauth2 && (!cr.Descoped() || cr.descoped.value.operatorNs in {"", cr.ns})
  {
    var cfg := indexes[i].config.value;
    TokenRefreshers.CreatedByMember(parses, cfg.observatoria, false, j);
    TokenRefreshers.CreatedByIndex(parses, indexes, i);
  }
}
