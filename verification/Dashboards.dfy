/**
 Grafana dashboards: fetched first, written afterwards, and only if their file type is one that the
 create function writes.
 */
module Dashboards {
  import opened Kube
  import opened Observability
  import opened SyncEngine
  import opened Collectors
  import opened ResourceSync

  datatype SourceType = Json | Jsonnet | Yaml | Unknown

  /** What strings.TrimSpace removes. */
  predicate IsSpace(ch: char) {
    var n := ch as int;
    9 <= n <= 13 || n == 0x20 || n == 0x85 || n == 0xA0 || n == 0x1680 || 0x2000 <= n <= 0x200A
    || n == 0x2028 || n == 0x2029 || n == 0x202F || n == 0x205F || n == 0x3000
  }

  function TrimSpace(s: string): (r: string)
    ensures r == "" || (!IsSpace(r[0]) && !IsSpace(r[|r| - 1]))
    ensures (forall ch :: ch in s ==> !IsSpace(ch)) ==> r == s
  {
    if s == "" then s
    else if IsSpace(s[0]) then TrimSpace(s[1..])
    else if IsSpace(s[|s| - 1]) then TrimSpace(s[..|s| - 1])
    else s
  }

  /** Lower case for the letters of the extensions below; no other character becomes one of those letters. */
  function ToLower(s: string): (r: string)
    ensures |r| == |s|
  {
    seq(|s|, i requires 0 <= i < |s| => if 'A' <= s[i] <= 'Z' then s[i] - 'A' + 'a' else s[i])
  }

  function TypeOf(extension: string): SourceType {
    match ToLower(TrimSpace(extension))
    case "json" => Json
    case "grafonnet" => Jsonnet
    case "jsonnet" => Jsonnet
    case "yaml" => Yaml
    case _ => Unknown
  }

  /** getFileType: what follows the last dot of the path, the whole path where there is none. */
  function FileType(path: string): SourceType {
    var fragments := Split(path, '.');
    TypeOf(fragments[|fragments| - 1])
  }

  /** Only the last extension counts, whatever dots the rest of the path has. */
  lemma TypeByExtension(stem: string, extension: string)
    requires '.' !in extension
    ensures FileType(stem + "." + extension) == TypeOf(extension) == FileType(extension)
  {
    SplitSound(extension, '.');
    SplitAppend(stem, extension, '.');
    assert stem + "." + extension == stem + ['.'] + extension;
  }

  /** What the network and the parsers do: the path of a URL, the body that a request for it returns, and the dashboard in a YAML file. */
  datatype Download = Download(
    pathOf: string -> Option<string>,
    body: (string, string, string) -> Option<string>,
    parse: string -> Option<Obj>)
  {
    predicate Fetched(info: ResourceInfo) { pathOf(info.url).Some? && body(info.url, info.tag, info.accessToken).Some? }

    function Kind(info: ResourceInfo): SourceType
      requires Fetched(info)
    {
      FileType(pathOf(info.url).value)
    }

    /** The dashboard as parsed; a JSON one is taken as it is. */
    function Dashboard(info: ResourceInfo): Option<Obj>
      requires Fetched(info)
    {
      var text := body(info.url, info.tag, info.accessToken).value;
      if Kind(info) == Json then Some(Obj(map[], map["json" := text], [])) else parse(text)
    }
  }

  predicate Writable(kind: SourceType) { kind == Json || kind == Yaml }

  /** Does this entry end the create function with an error before it writes anything? */
  predicate Fails(download: Download, info: ResourceInfo) {
    !download.Fetched(info) || (Writable(download.Kind(info)) && download.Dashboard(info).None?)
  }

  function DashboardObject(download: Download): ResourceInfo -> Option<Obj> {
    (info: ResourceInfo) =>
      if Fails(download, info) || !Writable(download.Kind(info)) then None
      else
        var o := download.Dashboard(info).value;
        Some(o.(labels := MergeLabels(ManagedBy, Some(o.labels))))
  }

  /** The extension, whatever its case and the white space around it. */
  predicate Extends(path: string, extension: string) {
    exists i :: 0 <= i <= |path| && (i == 0 || path[i - 1] == '.') && '.' !in path[i..] && ToLower(TrimSpace(path[i..])) == extension
  }

  lemma LastExtension(path: string, i: nat)
    requires i <= |path| && (i == 0 || path[i - 1] == '.') && '.' !in path[i..]
    ensures FileType(path) == TypeOf(path[i..])
  {
    SplitSound(path[i..], '.');
    if i == 0 {
      assert path[0..] == path;
    } else {
      assert path == path[..i - 1] + "." + path[i..];
      TypeByExtension(path[..i - 1], path[i..]);
    }
  }

  /**
   What becomes of a dashboard file that could be fetched, by the extension of its path: JSON is written as it
   is, YAML as the object in it if it parses, a jsonnet file and anything else not at all and without an error.
   */
  lemma WrittenByExtension(download: Download, info: ResourceInfo, path: string, text: string, extension: string)
    requires download.pathOf(info.url) == Some(path) && download.body(info.url, info.tag, info.accessToken) == Some(text)
    requires Extends(path, extension)
    ensures extension == "json" ==> DashboardObject(download)(info) == Some(Obj(ManagedBy, map["json" := text], []))
    ensures extension == "yaml" && download.parse(text).None? ==> Fails(download, info)
    ensures extension == "yaml" && download.parse(text).Some? ==>
      var o := DashboardObject(download)(info);
      o.Some? && o.value.data == download.parse(text).value.data && Managed(download.parse(text).value.labels, o.value.labels)
    ensures extension !in {"json", "yaml"} ==> DashboardObject(download)(info).None? && !Fails(download, info)
  {
    var i :| 0 <= i <= |path| && (i == 0 || path[i - 1] == '.') && '.' !in path[i..] && ToLower(TrimSpace(path[i..])) == extension;
    LastExtension(path, i);
    assert FileType(path) == if extension == "json" then Json else if extension == "yaml" then Yaml else if extension in {"jsonnet", "grafonnet"} then Jsonnet else Unknown;
    if extension == "json" { MergedIsManaged(map[]); assert MergeLabels(ManagedBy, Some(map[])) == ManagedBy; }
    if extension == "yaml" && download.parse(text).Some? { MergedIsManaged(download.parse(text).value.labels); }
  }

  /** Plain lower-case extensions are their own. */
  lemma PlainExtension(stem: string, extension: string)
    requires forall ch :: ch in extension ==> 'a' <= ch <= 'z'
    ensures Extends(stem + "." + extension, extension) && Extends(extension, extension)
  {
    var path, n := stem + "." + extension, |stem| + 1;
    assert path[n..] == extension && path[n - 1] == '.';
    assert forall ch :: ch in extension ==> !IsSpace(ch);
    assert TrimSpace(extension) == extension;
    forall i | 0 <= i < |extension| ensures ToLower(extension)[i] == extension[i] { assert extension[i] in extension; }
    assert ToLower(extension) == extension;
    assert extension[0..] == extension;
  }

  /** The entries that get written: the empty case for jsonnet falls out, and so do unknown types. */
  function Creatable(download: Download, infos: seq<ResourceInfo>): seq<ResourceInfo> {
    if infos == [] then []
    else
      var init, last := infos[..|infos| - 1], infos[|infos| - 1];
      Creatable(download, init) + if DashboardObject(download)(last).Some? then [last] else []
  }

  lemma {:induction false} CreatableSound(download: Download, infos: seq<ResourceInfo>)
    ensures forall i :: 0 <= i < |Creatable(download, infos)| ==>
      Creatable(download, infos)[i] in infos && DashboardObject(download)(Creatable(download, infos)[i]).Some?
    ensures NamesDistinct(infos) ==> NamesDistinct(Creatable(download, infos))
  {
    if infos != [] {
      var init, last := infos[..|infos| - 1], infos[|infos| - 1];
      CreatableSound(download, init);
      assert infos == init + [last];
      if NamesDistinct(infos) {
        assert forall info :: info in init ==> info.name != last.name;
      }
    }
  }

  lemma {:induction false} CreatableComplete(download: Download, infos: seq<ResourceInfo>, info: ResourceInfo)
    requires info in infos && DashboardObject(download)(info).Some?
    ensures info in Creatable(download, infos)
  {
    if info != infos[|infos| - 1] { CreatableComplete(download, infos[..|infos| - 1], info); }
  }

  ghost predicate NoneFails(download: Download, infos: seq<ResourceInfo>) {
    forall i :: 0 <= i < |infos| ==> !Fails(download, infos[i])
  }

  /** First half of the create function: fetch everything, give up on the first error. */
  method FetchAll(infos: seq<ResourceInfo>, download: Download) returns (ok: bool, files: seq<ResourceInfo>)
    ensures ok <==> NoneFails(download, infos)
    ensures ok ==> files == Creatable(download, infos)
  {
    ok, files := true, [];
    for i := 0 to |infos|
      invariant ok && files == Creatable(download, infos[..i])
      invariant forall j :: 0 <= j < i ==> !Fails(download, infos[j])
    {
      assert infos[..i + 1][..i] == infos[..i];
      if Fails(download, infos[i]) { return false, []; }
      if Writable(download.Kind(infos[i])) { files := files + [infos[i]]; }
    }
    assert infos[..|infos|] == infos;
  }

  function Present(s: Store, ns: string): set<string> {
    set k | k in s && k.kind == GrafanaDashboard && k.ns == ns :: k.name
  }

  lemma PresentAfterDelete(a: Store, ns: string, infos: seq<ResourceInfo>)
    ensures Present(a - Unrequested(a, GrafanaDashboard, ns, infos), ns) == Present(a, ns) * Names(infos)
  {
    var b := a - Unrequested(a, GrafanaDashboard, ns, infos);
    forall name ensures name in Present(b, ns) <==> name in Present(a, ns) * Names(infos) {
      var k := Key(GrafanaDashboard, ns, name);
      assert k in a ==> Matches(a[k], map[]);
      assert name in Present(a, ns) <==> k in a;
      assert name in Present(b, ns) <==> k in b;
    }
  }

  lemma {:induction false} PresentAfterCreate(s: Store, ns: string, infos: seq<ResourceInfo>, desired: ResourceInfo -> Option<Obj>)
    requires Available(infos, desired)
    ensures Present(PutAll(s, GrafanaDashboard, ns, infos, desired), ns) == Present(s, ns) + Names(infos)
  {
    if infos == [] {
    } else {
      var init, last := infos[..|infos| - 1], infos[|infos| - 1];
      PresentAfterCreate(s, ns, init, desired);
      assert Names(infos) == Names(init) + {last.name} by {
        assert forall i :: 0 <= i < |init| ==> init[i] == infos[i];
        NamesOfInit(infos);
      }
      PresentAfterPut(PutAll(s, GrafanaDashboard, ns, init, desired), ns, last.name, desired(last).value);
    }
  }

  lemma PresentAfterPut(s: Store, ns: string, name: string, o: Obj)
    ensures Present(s[Key(GrafanaDashboard, ns, name) := o], ns) == Present(s, ns) + {name}
  {
    var t := s[Key(GrafanaDashboard, ns, name) := o];
    forall n ensures n in Present(t, ns) <==> n in Present(s, ns) + {name} {
      assert n in Present(t, ns) <==> Key(GrafanaDashboard, ns, n) in t;
      assert n in Present(s, ns) <==> Key(GrafanaDashboard, ns, n) in s;
    }
  }

  /**
   Delete, fetch, write. What a completed sync leaves, by name and by content; and wherever it stops,
   nothing but dashboards of the namespace changed and no requested one went missing.
   */
  method SyncDashboards(c: Cluster, ns: string, infos: seq<ResourceInfo>, download: Download) returns (ok: bool)
    requires NamesDistinct(infos)
    modifies c
    ensures old(c.log) <= c.log
    ensures AllSafe(c.log, |old(c.log)|, old(c.store), GrafanaDashboard, ns, Names(infos))
    ensures Safe(old(c.store), c.store, GrafanaDashboard, ns, Names(infos))
    ensures ok ==>
      && Present(c.store, ns) == Present(old(c.store), ns) * Names(infos) + Names(Creatable(download, infos))
      && AllWritten(c.store, GrafanaDashboard, ns, Creatable(download, infos), DashboardObject(download))
    ensures ok ==> NoneFails(download, infos)
    ensures c.Reliable() && NoneFails(download, infos) ==> ok
  {
    ok := DeleteUnrequestedResources(c, GrafanaDashboard, ns, infos);
    DeletePhase(c.log, |old(c.log)|, old(c.store), c.store, GrafanaDashboard, ns, infos);
    if ok {
      PresentAfterDelete(old(c.store), ns, infos);
      var files;
      ok, files := FetchAll(infos, download);
      if ok {
        ok := WriteFiles(c, ns, infos, files, download, old(c.store), |old(c.log)|);
      }
    }
  }

  method WriteFiles(c: Cluster, ns: string, ghost infos: seq<ResourceInfo>, files: seq<ResourceInfo>, download: Download, ghost start: Store, ghost n: nat)
    returns (ok: bool)
    requires NamesDistinct(infos) && files == Creatable(download, infos) && n <= |c.log|
    requires AllSafe(c.log, n, start, GrafanaDashboard, ns, Names(infos)) && Safe(start, c.store, GrafanaDashboard, ns, Names(infos))
    modifies c
    ensures old(c.log) <= c.log
    ensures AllSafe(c.log, n, start, GrafanaDashboard, ns, Names(infos)) && Safe(start, c.store, GrafanaDashboard, ns, Names(infos))
    ensures ok ==>
      && Present(c.store, ns) == Present(old(c.store), ns) + Names(files)
      && AllWritten(c.store, GrafanaDashboard, ns, files, DashboardObject(download))
    ensures c.Reliable() ==> ok
  {
    CreatableSound(download, infos);
    ok := CreateRequestedResources(c, GrafanaDashboard, ns, files, DashboardObject(download));
    NamesOfCreatable(download, infos);
    DashboardsLabelled(download);
    WritesAreSafe(old(c.log), c.log, n, start, old(c.store), c.store, ns, files, DashboardObject(download), Names(infos));
    if ok {
      PresentAfterCreate(old(c.store), ns, files, DashboardObject(download));
      PutAllWrites(old(c.store), GrafanaDashboard, ns, files, DashboardObject(download));
    }
  }

  lemma DashboardsLabelled(download: Download)
    ensures Labelled(DashboardObject(download))
  {
  }

  lemma NamesOfCreatable(download: Download, infos: seq<ResourceInfo>)
    ensures Names(Creatable(download, infos)) <= Names(infos)
  {
    CreatableSound(download, infos);
    var files := Creatable(download, infos);
    forall name | name in Names(files) ensures name in Names(infos) {
      var i :| 0 <= i < |files| && files[i].name == name;
      assert files[i] in infos;
    }
  }

  lemma PartialWithin(t: Store, s: Store, ns: string, files: seq<ResourceInfo>, desired: ResourceInfo -> Option<Obj>, names: set<string>)
    requires Partial(t, s, GrafanaDashboard, ns, files, desired) && Names(files) <= names && Labelled(desired)
    ensures Safe(s, t, GrafanaDashboard, ns, names)
  {
    var j :| 0 <= j <= |files| && t == PutAll(s, GrafanaDashboard, ns, files[..j], desired);
    assert Names(files[..j]) <= Names(files);
    PutAllSafe(s, GrafanaDashboard, ns, files[..j], desired, names);
  }

  lemma WritesAreSafe(before: seq<Step>, log: seq<Step>, n: nat, a: Store, b: Store, d: Store, ns: string,
                      files: seq<ResourceInfo>, desired: ResourceInfo -> Option<Obj>, names: set<string>)
    requires before <= log && n <= |before| && Names(files) <= names && Labelled(desired)
    requires AllSafe(before, n, a, GrafanaDashboard, ns, names) && Safe(a, b, GrafanaDashboard, ns, names)
    requires AllPartial(log, |before|, b, GrafanaDashboard, ns, files, desired) && Partial(d, b, GrafanaDashboard, ns, files, desired)
    ensures AllSafe(log, n, a, GrafanaDashboard, ns, names) && Safe(a, d, GrafanaDashboard, ns, names)
  {
    PartialWithin(d, b, ns, files, desired, names);
    SafeTransitive(a, b, d, GrafanaDashboard, ns, names);
    forall i | n <= i < |log| ensures Safe(a, log[i].post.store, GrafanaDashboard, ns, names) {
      if i < |before| {
        assert log[i] == before[i];
      } else {
        assert Partial(log[i].post.store, b, GrafanaDashboard, ns, files, desired);
        PartialWithin(log[i].post.store, b, ns, files, desired, names);
        SafeTransitive(a, b, log[i].post.store, GrafanaDashboard, ns, names);
      }
    }
  }

  predicate IsWritable(download: Download, info: ResourceInfo) {
    download.Fetched(info) && Writable(download.Kind(info))
  }

  ghost predicate AllWritable(download: Download, infos: seq<ResourceInfo>) {
    forall i :: 0 <= i < |infos| ==> IsWritable(download, infos[i])
  }

  lemma {:induction false} AllCreated(download: Download, infos: seq<ResourceInfo>)
    requires NoneFails(download, infos) && AllWritable(download, infos)
    ensures Creatable(download, infos) == infos
  {
    if infos != [] {
      var init, last := infos[..|infos| - 1], infos[|infos| - 1];
      AllCreated(download, init);
      assert IsWritable(download, last) && !Fails(download, last);
      assert infos == init + [last];
    }
  }

  lemma UnwritableMissing(download: Download, infos: seq<ResourceInfo>, i: nat)
    requires NamesDistinct(infos) && i < |infos| && !IsWritable(download, infos[i])
    ensures infos[i].name !in Names(Creatable(download, infos))
  {
    var files := Creatable(download, infos);
    CreatableSound(download, infos);
    forall j | 0 <= j < |files| ensures files[j].name != infos[i].name {
      var m :| 0 <= m < |infos| && infos[m] == files[j];
      assert m != i;
    }
  }

  /**
   From every starting cluster a completed sync leaves exactly the requested dashboards, if and only if
   every requested file is of a type that gets written.
   */
  lemma ConvergesIff(infos: seq<ResourceInfo>, download: Download)
    requires NamesDistinct(infos) && NoneFails(download, infos)
    ensures (forall start :: start * Names(infos) + Names(Creatable(download, infos)) == Names(infos)) <==> AllWritable(download, infos)
  {
    if AllWritable(download, infos) {
      AllCreated(download, infos);
    } else {
      var i :| 0 <= i < |infos| && !IsWritable(download, infos[i]);
      UnwritableMissing(download, infos, i);
      assert infos[i].name in Names(infos) && infos[i].name !in {} * Names(infos) + Names(Creatable(download, infos));
    }
  }

  /**
   A jsonnet dashboard is requested and never created, whatever else is requested with it: a completed
   sync leaves it exactly where it was there before.
   */
  lemma JsonnetNeverCreated(infos: seq<ResourceInfo>, download: Download, i: nat)
    requires NamesDistinct(infos) && i < |infos|
    requires download.Fetched(infos[i]) && download.Kind(infos[i]) == Jsonnet
    ensures infos[i].name in Names(infos)
    ensures forall start :: infos[i].name in start * Names(infos) + Names(Creatable(download, infos)) <==> infos[i].name in start
  {
    UnwritableMissing(download, infos, i);
    assert infos[i].name in Names(infos);
  }
}
