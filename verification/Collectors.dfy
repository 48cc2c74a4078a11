/** Which rule files, dashboards and pod monitors the indexes ask for, each name once. */
module Collectors {
  import opened Kube
  import opened Observability

  datatype ResourceInfo = ResourceInfo(id: string, name: string, url: string, accessToken: string, tag: string)

  // ---------- getNameFromUrl ----------

  /** strings.Split for a one-character separator. */
  function Split(s: string, c: char): (parts: seq<string>)
    ensures |parts| > 0
  {
    if s == "" then [""]
    else if s[0] == c then [""] + Split(s[1..], c)
    else
      var rest := Split(s[1..], c);
      [[s[0]] + rest[0]] + rest[1..]
  }

  function Join(parts: seq<string>, c: char): string {
    if parts == [] then ""
    else if |parts| == 1 then parts[0]
    else parts[0] + [c] + Join(parts[1..], c)
  }

  function NameFromUrl(path: string): string {
    var parts := Split(path, '/');
    Split(parts[|parts| - 1], '.')[0]
  }

  lemma {:induction false} SplitPlain(s: string, c: char)
    ensures forall i :: 0 <= i < |Split(s, c)| ==> c !in Split(s, c)[i]
    ensures c !in s ==> Split(s, c) == [s]
  {
    if s != "" {
      SplitPlain(s[1..], c);
      assert s == [s[0]] + s[1..];
    }
  }

  lemma {:induction false} JoinSplit(s: string, c: char)
    ensures Join(Split(s, c), c) == s
  {
    if s != "" {
      JoinSplit(s[1..], c);
      var rest := Split(s[1..], c);
      assert s == [s[0]] + s[1..];
      if s[0] == c {
        JoinCons("", rest, c);
      } else if |rest| > 1 {
        assert ([[s[0]] + rest[0]] + rest[1..])[1..] == rest[1..];
      }
    }
  }

  /** Splitting loses nothing and leaves no separator behind. */
  lemma SplitSound(s: string, c: char)
    ensures Join(Split(s, c), c) == s
    ensures forall i :: 0 <= i < |Split(s, c)| ==> c !in Split(s, c)[i]
    ensures c !in s ==> Split(s, c) == [s]
  {
    SplitPlain(s, c);
    JoinSplit(s, c);
  }

  lemma {:induction false} SplitParts(s: string, c: char, d: char)
    requires d !in s
    ensures forall i :: 0 <= i < |Split(s, c)| ==> d !in Split(s, c)[i]
  {
    if s != "" {
      SplitParts(s[1..], c, d);
    }
  }

  lemma {:induction false} SplitAppend(a: string, b: string, c: char)
    ensures Split(a + [c] + b, c) == Split(a, c) + Split(b, c)
  {
    if a == "" {
      assert (a + [c] + b)[1..] == b;
    } else {
      assert (a + [c] + b)[1..] == a[1..] + [c] + b;
      SplitAppend(a[1..], b, c);
    }
  }

  /** Joining parts without the separator loses nothing either. */
  lemma {:induction false} SplitJoin(parts: seq<string>, c: char)
    requires parts != [] && forall i :: 0 <= i < |parts| ==> c !in parts[i]
    ensures Split(Join(parts, c), c) == parts
  {
    var first, rest := parts[0], parts[1..];
    SplitSound(first, c);
    if rest == [] {
      assert Join(parts, c) == first;
      assert parts == [first];
    } else {
      SplitJoin(rest, c);
      SplitAppend(first, Join(rest, c), c);
      JoinCons(first, rest, c);
      assert parts == [first] + rest;
    }
  }

  lemma JoinCons(first: string, rest: seq<string>, c: char)
    requires rest != []
    ensures Join([first] + rest, c) == first + [c] + Join(rest, c)
  {
    assert ([first] + rest)[1..] == rest;
  }

  /** A derived name never contains a path separator or a dot. */
  lemma NameIsPlain(path: string)
    ensures '/' !in NameFromUrl(path) && '.' !in NameFromUrl(path)
  {
    var parts := Split(path, '/');
    SplitSound(path, '/');
    var file := parts[|parts| - 1];
    SplitSound(file, '.');
    SplitParts(file, '.', '/');
  }

  /** The name of directory/base.extension is base, whatever the directory. */
  lemma NameOfFile(dir: string, base: string, ext: string)
    requires '/' !in base && '.' !in base && '/' !in ext
    ensures NameFromUrl(dir + "/" + base + "." + ext) == base
    ensures NameFromUrl(base + "." + ext) == base
  {
    var file := base + "." + ext;
    assert '/' !in file;
    SplitSound(file, '/');
    SplitAppend(dir, file, '/');
    assert dir + "/" + base + "." + ext == dir + ['/'] + file;
    SplitSound(base, '.');
    SplitAppend(base, ext, '.');
    assert file == base + ['.'] + ext;
  }

  // ---------- The collectors ----------

  function Info(index: Index, path: string): ResourceInfo {
    ResourceInfo(index.id, NameFromUrl(path), index.baseUrl + "/" + path, index.accessToken, index.tag)
  }

  function Infos(index: Index, paths: seq<string>): (r: seq<ResourceInfo>)
    ensures |r| == |paths| && forall j :: 0 <= j < |r| ==> r[j] == Info(index, paths[j])
  {
    seq(|paths|, j requires 0 <= j < |paths| => Info(index, paths[j]))
  }

  function RulePaths(index: Index): seq<string> {
    if index.config.None? || index.config.value.prometheus.None? then [] else index.config.value.prometheus.value.rules
  }

  function MonitorPaths(index: Index): seq<string> {
    if index.config.None? || index.config.value.prometheus.None? then [] else index.config.value.prometheus.value.podMonitors
  }

  predicate HasName(infos: seq<ResourceInfo>, name: string) {
    exists i :: 0 <= i < |infos| && infos[i].name == name
  }

  ghost predicate NamesDistinct(infos: seq<ResourceInfo>) {
    forall i, j :: 0 <= i < j < |infos| ==> infos[i].name != infos[j].name
  }

  /** One index under the outer `continue seek`: nothing after its first repeated name counts. */
  function UntilRepeat(acc: seq<ResourceInfo>, infos: seq<ResourceInfo>): seq<ResourceInfo>
    decreases infos
  {
    if infos == [] || HasName(acc, infos[0].name) then acc
    else UntilRepeat(acc + [infos[0]], infos[1..])
  }

  /** One index under the inner `continue seek`: only the repeated names are skipped. */
  function SkipRepeats(acc: seq<ResourceInfo>, infos: seq<ResourceInfo>): seq<ResourceInfo>
    decreases infos
  {
    if infos == [] then acc
    else SkipRepeats(if HasName(acc, infos[0].name) then acc else acc + [infos[0]], infos[1..])
  }

  function DashboardPaths(index: Index): seq<string> {
    if index.config.None? || index.config.value.dashboards.None? then [] else index.config.value.dashboards.value
  }

  /** What one index lists of a kind of resource. */
  type Entries = Index -> seq<ResourceInfo>

  function RuleEntries(index: Index): seq<ResourceInfo> {
    Infos(index, RulePaths(index))
  }

  function MonitorEntries(index: Index): seq<ResourceInfo> {
    Infos(index, MonitorPaths(index))
  }

  /** The entry of a dashboard does not record the index. */
  function DashboardEntries(index: Index): seq<ResourceInfo> {
    Infos(index.(id := ""), DashboardPaths(index))
  }

  /** The collectors of rules and of dashboards. */
  function Collect(entries: Entries, acc: seq<ResourceInfo>, indexes: seq<Index>): seq<ResourceInfo>
    decreases indexes
  {
    if indexes == [] then acc
    else Collect(entries, UntilRepeat(acc, entries(indexes[0])), indexes[1..])
  }

  function CollectRules(acc: seq<ResourceInfo>, indexes: seq<Index>): seq<ResourceInfo> {
    Collect(RuleEntries, acc, indexes)
  }

  function CollectMonitors(acc: seq<ResourceInfo>, indexes: seq<Index>): seq<ResourceInfo>
    decreases indexes
  {
    if indexes == [] then acc
    else CollectMonitors(SkipRepeats(acc, MonitorEntries(indexes[0])), indexes[1..])
  }

  /** The innermost loop of both collectors. */
  method Seen(result: seq<ResourceInfo>, name: string) returns (seen: bool)
    ensures seen <==> HasName(result, name)
  {
    for k := 0 to |result|
      invariant forall m :: 0 <= m < k ==> result[m].name != name
    {
      if result[k].name == name { return true; }
    }
    return false;
  }

  lemma CollectStep(entries: Entries, acc: seq<ResourceInfo>, indexes: seq<Index>, i: nat)
    requires i < |indexes|
    ensures Collect(entries, acc, indexes[i..]) == Collect(entries, UntilRepeat(acc, entries(indexes[i])), indexes[i + 1..])
  {
    assert indexes[i..][1..] == indexes[i + 1..];
  }

  lemma UntilRepeatStep(acc: seq<ResourceInfo>, infos: seq<ResourceInfo>, j: nat)
    requires j < |infos|
    ensures UntilRepeat(acc, infos[j..]) == if HasName(acc, infos[j].name) then acc else UntilRepeat(acc + [infos[j]], infos[j + 1..])
  {
    assert infos[j..][0] == infos[j] && infos[j..][1..] == infos[j + 1..];
  }

  method GetUniqueRules(indexes: seq<Index>) returns (result: seq<ResourceInfo>)
    ensures result == CollectRules([], indexes)
  {
    ghost var total := Collect(RuleEntries, [], indexes);
    result := [];
    assert indexes[0..] == indexes;
    label seek: for i := 0 to |indexes|
      invariant Collect(RuleEntries, result, indexes[i..]) == total
    {
      var index := indexes[i];
      CollectStep(RuleEntries, result, indexes, i);
      if index.config.None? || index.config.value.prometheus.None? { continue; }
      var rules := index.config.value.prometheus.value.rules;
      ghost var infos, whole := RuleEntries(index), UntilRepeat(result, RuleEntries(index));
      assert infos[0..] == infos;
      for j := 0 to |rules|
        invariant UntilRepeat(result, infos[j..]) == whole
      {
        UntilRepeatStep(result, infos, j);
        var seen := Seen(result, NameFromUrl(rules[j]));
        if seen { continue seek; }
        result := result + [Info(index, rules[j])];
      }
    }
  }

  method GetUniqueDashboards(indexes: seq<Index>) returns (result: seq<ResourceInfo>)
    ensures result == Collect(DashboardEntries, [], indexes)
  {
    ghost var total := Collect(DashboardEntries, [], indexes);
    result := [];
    assert indexes[0..] == indexes;
    label seek: for i := 0 to |indexes|
      invariant Collect(DashboardEntries, result, indexes[i..]) == total
    {
      var index := indexes[i];
      CollectStep(DashboardEntries, result, indexes, i);
      if index.config.None? || index.config.value.dashboards.None? { continue; }
      var dashboards := index.config.value.dashboards.value;
      ghost var infos, whole := DashboardEntries(index), UntilRepeat(result, DashboardEntries(index));
      assert infos[0..] == infos;
      for j := 0 to |dashboards|
        invariant UntilRepeat(result, infos[j..]) == whole
      {
        UntilRepeatStep(result, infos, j);
        var seen := Seen(result, NameFromUrl(dashboards[j]));
        if seen { continue seek; }
        result := result + [Info(index.(id := ""), dashboards[j])];
      }
    }
  }

  method GetUniquePodMonitors(indexes: seq<Index>) returns (result: seq<ResourceInfo>)
    ensures result == CollectMonitors([], indexes)
  {
    result := [];
    for i := 0 to |indexes|
      invariant CollectMonitors(result, indexes[i..]) == CollectMonitors([], indexes)
    {
      var index := indexes[i];
      assert indexes[i..][1..] == indexes[i + 1..];
      if index.config.None? || index.config.value.prometheus.None? { continue; }
      var monitors := index.config.value.prometheus.value.podMonitors;
      ghost var infos := Infos(index, monitors);
      ghost var whole := SkipRepeats(result, infos);
      assert infos[0..] == infos;
      label seek: for j := 0 to |monitors|
        invariant SkipRepeats(result, infos[j..]) == whole
      {
        assert infos[j..][0] == infos[j] && infos[j..][1..] == infos[j + 1..];
        var seen := Seen(result, NameFromUrl(monitors[j]));
        if seen { continue seek; }
        result := result + [Info(index, monitors[j])];
      }
    }
  }

  // ---------- What the collectors compute ----------

  /** Everything the indexes list, in order. */
  function Listed(indexes: seq<Index>, entries: Entries): seq<ResourceInfo> {
    if indexes == [] then [] else entries(indexes[0]) + Listed(indexes[1..], entries)
  }

  /** The entries whose name does not occur before them. */
  function Firsts(infos: seq<ResourceInfo>): seq<ResourceInfo> {
    if infos == [] then []
    else
      var init, last := infos[..|infos| - 1], infos[|infos| - 1];
      if HasName(init, last.name) then Firsts(init) else Firsts(init) + [last]
  }

  lemma {:induction false} KeptFrom(acc: seq<ResourceInfo>, infos: seq<ResourceInfo>, info: ResourceInfo)
    ensures info in UntilRepeat(acc, infos) ==> info in acc || info in infos
    ensures info in SkipRepeats(acc, infos) ==> info in acc || info in infos
    decreases infos
  {
    if infos != [] {
      KeptFrom(acc + [infos[0]], infos[1..], info);
      KeptFrom(acc, infos[1..], info);
    }
  }

  /** Nothing is collected that no index lists. */
  lemma {:induction false} CollectedFrom(entries: Entries, acc: seq<ResourceInfo>, indexes: seq<Index>, info: ResourceInfo)
    requires info in Collect(entries, acc, indexes)
    ensures info in acc || exists i :: 0 <= i < |indexes| && info in entries(indexes[i])
    decreases indexes
  {
    if indexes != [] {
      var next := UntilRepeat(acc, entries(indexes[0]));
      CollectedFrom(entries, next, indexes[1..], info);
      KeptFrom(acc, entries(indexes[0]), info);
      if info !in next {
        var i :| 0 <= i < |indexes[1..]| && info in entries(indexes[1..][i]);
        assert indexes[i + 1] == indexes[1..][i];
      }
    }
  }

  lemma {:induction false} MonitorsFrom(acc: seq<ResourceInfo>, indexes: seq<Index>, info: ResourceInfo)
    requires info in CollectMonitors(acc, indexes)
    ensures info in acc || exists i :: 0 <= i < |indexes| && info in MonitorEntries(indexes[i])
    decreases indexes
  {
    if indexes != [] {
      var next := SkipRepeats(acc, MonitorEntries(indexes[0]));
      MonitorsFrom(next, indexes[1..], info);
      KeptFrom(acc, MonitorEntries(indexes[0]), info);
      if info !in next {
        var i :| 0 <= i < |indexes[1..]| && info in MonitorEntries(indexes[1..][i]);
        assert indexes[i + 1] == indexes[1..][i];
      }
    }
  }

  /** A collected rule is a path among the rules of some index, with that index's id, repository, token and tag. */
  lemma RuleSource(indexes: seq<Index>, info: ResourceInfo) returns (i: nat, path: string)
    requires info in CollectRules([], indexes)
    ensures i < |indexes| && indexes[i].config.Some? && indexes[i].config.value.prometheus.Some?
    ensures path in indexes[i].config.value.prometheus.value.rules
    ensures info == ResourceInfo(indexes[i].id, NameFromUrl(path), indexes[i].baseUrl + "/" + path, indexes[i].accessToken, indexes[i].tag)
  {
    CollectedFrom(RuleEntries, [], indexes, info);
    i :| 0 <= i < |indexes| && info in RuleEntries(indexes[i]);
    var p :| 0 <= p < |RuleEntries(indexes[i])| && info == RuleEntries(indexes[i])[p];
    path := RulePaths(indexes[i])[p];
  }

  /** The same for pod monitors. */
  lemma MonitorSource(indexes: seq<Index>, info: ResourceInfo) returns (i: nat, path: string)
    requires info in CollectMonitors([], indexes)
    ensures i < |indexes| && indexes[i].config.Some? && indexes[i].config.value.prometheus.Some?
    ensures path in indexes[i].config.value.prometheus.value.podMonitors
    ensures info == ResourceInfo(indexes[i].id, NameFromUrl(path), indexes[i].baseUrl + "/" + path, indexes[i].accessToken, indexes[i].tag)
  {
    MonitorsFrom([], indexes, info);
    i :| 0 <= i < |indexes| && info in MonitorEntries(indexes[i]);
    var p :| 0 <= p < |MonitorEntries(indexes[i])| && info == MonitorEntries(indexes[i])[p];
    path := MonitorPaths(indexes[i])[p];
  }

  /** And for dashboards, whose entries record no id. */
  lemma DashboardSource(indexes: seq<Index>, info: ResourceInfo) returns (i: nat, path: string)
    requires info in Collect(DashboardEntries, [], indexes)
    ensures i < |indexes| && indexes[i].config.Some? && indexes[i].config.value.dashboards.Some?
    ensures path in indexes[i].config.value.dashboards.value
    ensures info == ResourceInfo("", NameFromUrl(path), indexes[i].baseUrl + "/" + path, indexes[i].accessToken, indexes[i].tag)
  {
    CollectedFrom(DashboardEntries, [], indexes, info);
    i :| 0 <= i < |indexes| && info in DashboardEntries(indexes[i]);
    var p :| 0 <= p < |DashboardEntries(indexes[i])| && info == DashboardEntries(indexes[i])[p];
    path := DashboardPaths(indexes[i])[p];
  }

  lemma Assoc(a: seq<ResourceInfo>, b: seq<ResourceInfo>, c: seq<ResourceInfo>)
    ensures a + b + c == a + (b + c)
  {
  }

  lemma DistinctPrefix(a: seq<ResourceInfo>, b: seq<ResourceInfo>)
    requires NamesDistinct(a + b)
    ensures NamesDistinct(a)
  {
    forall i, j | 0 <= i < j < |a| ensures a[i].name != a[j].name {
      assert a[i] == (a + b)[i] && a[j] == (a + b)[j];
    }
  }

  lemma FirstsSnoc(pre: seq<ResourceInfo>, x: ResourceInfo)
    ensures Firsts(pre + [x]) == if HasName(pre, x.name) then Firsts(pre) else Firsts(pre) + [x]
  {
    assert (pre + [x])[..|pre|] == pre;
  }

  lemma HasNameAppend(a: seq<ResourceInfo>, b: seq<ResourceInfo>, name: string)
    ensures HasName(a + b, name) <==> HasName(a, name) || HasName(b, name)
  {
    if HasName(a, name) {
      var i :| 0 <= i < |a| && a[i].name == name;
      assert (a + b)[i].name == name;
    }
    if HasName(b, name) {
      var i :| 0 <= i < |b| && b[i].name == name;
      assert (a + b)[|a| + i].name == name;
    }
  }

  /** Same names, each once. */
  lemma {:induction false} FirstsNames(infos: seq<ResourceInfo>)
    ensures forall name :: HasName(Firsts(infos), name) <==> HasName(infos, name)
    ensures NamesDistinct(Firsts(infos))
  {
    if infos != [] {
      var init, last := infos[..|infos| - 1], infos[|infos| - 1];
      assert infos == init + [last];
      FirstsNames(init);
      forall name ensures HasName(Firsts(infos), name) <==> HasName(infos, name) {
        HasNameAppend(init, [last], name);
        HasNameAppend(Firsts(init), [last], name);
      }
    }
  }

  lemma FirstsName(infos: seq<ResourceInfo>, name: string)
    ensures HasName(Firsts(infos), name) <==> HasName(infos, name)
  {
    FirstsNames(infos);
  }

  lemma {:induction false} SkipRepeatsIsFirsts(pre: seq<ResourceInfo>, infos: seq<ResourceInfo>)
    ensures SkipRepeats(Firsts(pre), infos) == Firsts(pre + infos)
    decreases infos
  {
    if infos == [] {
      assert pre + infos == pre;
    } else {
      var x, rest := infos[0], infos[1..];
      FirstsName(pre, x.name);
      FirstsSnoc(pre, x);
      SkipRepeatsIsFirsts(pre + [x], rest);
      assert infos == [x] + rest;
      Assoc(pre, [x], rest);
    }
  }

  lemma {:induction false} MonitorsOnto(pre: seq<ResourceInfo>, indexes: seq<Index>)
    ensures CollectMonitors(Firsts(pre), indexes) == Firsts(pre + Listed(indexes, MonitorEntries))
    decreases indexes
  {
    if indexes == [] {
      assert pre + Listed(indexes, MonitorEntries) == pre;
    } else {
      var here, rest := MonitorEntries(indexes[0]), Listed(indexes[1..], MonitorEntries);
      SkipRepeatsIsFirsts(pre, here);
      MonitorsOnto(pre + here, indexes[1..]);
      Assoc(pre, here, rest);
    }
  }

  /** getUniquePodMonitors is first-occurrence deduplication by name of all that is listed. */
  lemma MonitorsAreFirsts(indexes: seq<Index>)
    ensures CollectMonitors([], indexes) == Firsts(Listed(indexes, MonitorEntries))
    ensures NamesDistinct(CollectMonitors([], indexes))
    ensures forall name :: HasName(CollectMonitors([], indexes), name) <==> HasName(Listed(indexes, MonitorEntries), name)
  {
    var all := Listed(indexes, MonitorEntries);
    assert CollectMonitors([], indexes) == Firsts(all) by {
      MonitorsOnto([], indexes);
      assert [] + all == all;
    }
    FirstsNames(all);
  }

  // ---------- Rules and dashboards: the outer `continue seek` loses files ----------

  /** After a repeated name, an index lists nothing new. */
  ghost predicate NothingNewAfterRepeat(pre: seq<ResourceInfo>, infos: seq<ResourceInfo>) {
    forall j, k :: 0 <= j < k < |infos| && HasName(pre + infos[..j], infos[j].name) ==> HasName(pre + infos[..j], infos[k].name)
  }

  ghost predicate Lossless(entries: Entries, pre: seq<ResourceInfo>, indexes: seq<Index>)
    decreases indexes
  {
    indexes == []
    || var here := entries(indexes[0]);
       NothingNewAfterRepeat(pre, here) && Lossless(entries, pre + here, indexes[1..])
  }

  lemma {:induction false} FirstsGrow(pre: seq<ResourceInfo>, infos: seq<ResourceInfo>)
    ensures Firsts(pre) <= Firsts(pre + infos)
    ensures forall i :: |Firsts(pre)| <= i < |Firsts(pre + infos)| ==> Firsts(pre + infos)[i] in infos
    decreases |infos|
  {
    if infos == [] {
      assert pre + infos == pre;
    } else {
      var init, last := infos[..|infos| - 1], infos[|infos| - 1];
      assert infos == init + [last];
      FirstsGrow(pre, init);
      Assoc(pre, init, [last]);
      FirstsSnoc(pre + init, last);
    }
  }

  ghost predicate AllKnown(pre: seq<ResourceInfo>, infos: seq<ResourceInfo>) {
    forall k :: 0 <= k < |infos| ==> HasName(pre, infos[k].name)
  }

  lemma AllKnownOn(pre: seq<ResourceInfo>, init: seq<ResourceInfo>, last: ResourceInfo)
    ensures AllKnown(pre, init + [last]) <==> AllKnown(pre, init) && HasName(pre, last.name)
  {
    var infos := init + [last];
    assert infos[|init|] == last && forall k :: 0 <= k < |init| ==> infos[k] == init[k];
  }

  lemma {:induction false} FirstsOfKnown(pre: seq<ResourceInfo>, infos: seq<ResourceInfo>)
    ensures Firsts(pre + infos) == Firsts(pre) <==> AllKnown(pre, infos)
    decreases |infos|
  {
    if infos == [] {
      assert pre + infos == pre;
    } else {
      var init, last := infos[..|infos| - 1], infos[|infos| - 1];
      assert infos == init + [last];
      FirstsOfKnown(pre, init);
      FirstsGrow(pre, init);
      Assoc(pre, init, [last]);
      FirstsSnoc(pre + init, last);
      HasNameAppend(pre, init, last.name);
      AllKnownOn(pre, init, last);
      if AllKnown(pre, infos) {
        assert HasName(pre + init, last.name);
      }
    }
  }

  lemma RepeatAtHead(pre: seq<ResourceInfo>, infos: seq<ResourceInfo>)
    requires infos != [] && HasName(pre, infos[0].name)
    ensures Firsts(pre) <= UntilRepeat(Firsts(pre), infos) <= Firsts(pre + infos)
    ensures UntilRepeat(Firsts(pre), infos) == Firsts(pre + infos) <==> NothingNewAfterRepeat(pre, infos)
  {
    FirstsNames(pre);
    assert UntilRepeat(Firsts(pre), infos) == Firsts(pre);
    FirstsGrow(pre, infos);
    FirstsOfKnown(pre, infos);
    HeadDecides(pre, infos);
  }

  lemma HeadDecides(pre: seq<ResourceInfo>, infos: seq<ResourceInfo>)
    requires infos != [] && HasName(pre, infos[0].name)
    ensures AllKnown(pre, infos) <==> NothingNewAfterRepeat(pre, infos)
  {
    assert pre + infos[..0] == pre;
    if AllKnown(pre, infos) {
      forall j, k | 0 <= j < k < |infos| ensures HasName(pre + infos[..j], infos[k].name) {
        HasNameAppend(pre, infos[..j], infos[k].name);
      }
    }
    if NothingNewAfterRepeat(pre, infos) {
      forall k | 0 <= k < |infos| ensures HasName(pre, infos[k].name) {
        if k > 0 { assert HasName(pre + infos[..0], infos[k].name); }
      }
    }
  }

  lemma {:induction false} RepeatCut(pre: seq<ResourceInfo>, infos: seq<ResourceInfo>)
    ensures Firsts(pre) <= UntilRepeat(Firsts(pre), infos) <= Firsts(pre + infos)
    ensures UntilRepeat(Firsts(pre), infos) == Firsts(pre + infos) <==> NothingNewAfterRepeat(pre, infos)
    decreases infos
  {
    if infos == [] {
      assert pre + infos == pre;
    } else if HasName(pre, infos[0].name) {
      RepeatAtHead(pre, infos);
    } else {
      FirstsNames(pre);
      FirstsSnoc(pre, infos[0]);
      assert UntilRepeat(Firsts(pre), infos) == UntilRepeat(Firsts(pre + [infos[0]]), infos[1..]);
      RepeatCut(pre + [infos[0]], infos[1..]);
      assert pre + [infos[0]] + infos[1..] == pre + infos;
      ShiftRepeat(pre, infos);
    }
  }

  lemma ShiftRepeat(pre: seq<ResourceInfo>, infos: seq<ResourceInfo>)
    requires infos != [] && !HasName(pre, infos[0].name)
    ensures NothingNewAfterRepeat(pre, infos) <==> NothingNewAfterRepeat(pre + [infos[0]], infos[1..])
  {
    var rest := infos[1..];
    forall j | 0 <= j < |rest| ensures pre + [infos[0]] + rest[..j] == pre + infos[..j + 1] {
    }
    assert pre + infos[..0] == pre;
    if NothingNewAfterRepeat(pre, infos) {
      forall j, k | 0 <= j < k < |rest| && HasName(pre + [infos[0]] + rest[..j], rest[j].name)
        ensures HasName(pre + [infos[0]] + rest[..j], rest[k].name)
      {
        assert HasName(pre + infos[..j + 1], infos[j + 1].name);
        assert HasName(pre + infos[..j + 1], infos[k + 1].name);
      }
    }
    if NothingNewAfterRepeat(pre + [infos[0]], rest) {
      forall j, k | 0 <= j < k < |infos| && HasName(pre + infos[..j], infos[j].name)
        ensures HasName(pre + infos[..j], infos[k].name)
      {
        assert j > 0;
        assert pre + infos[..j] == pre + [infos[0]] + rest[..j - 1];
        assert infos[j] == rest[j - 1] && infos[k] == rest[k - 1];
      }
    }
  }

  /** No entry of one index is listed again by a later one. */
  ghost predicate Private(entries: Entries, indexes: seq<Index>) {
    forall i, j, x :: 0 <= i < j < |indexes| && x in entries(indexes[i]) ==> x !in entries(indexes[j])
  }

  /** A rule's entry names its index, so distinct ids are enough. */
  lemma DistinctIdsArePrivate(indexes: seq<Index>)
    requires DistinctIds(indexes)
    ensures Private(RuleEntries, indexes)
  {
  }

  lemma {:induction false} ListedOf(entries: Entries, indexes: seq<Index>, x: ResourceInfo)
    requires x in Listed(indexes, entries)
    ensures exists m :: 0 <= m < |indexes| && x in entries(indexes[m])
  {
    if x in entries(indexes[0]) {
    } else {
      ListedOf(entries, indexes[1..], x);
      var m :| 0 <= m < |indexes[1..]| && x in entries(indexes[1..][m]);
      assert x in entries(indexes[m + 1]);
    }
  }

  /** Later indexes only append entries of their own. */
  lemma {:induction false} CollectExtends(entries: Entries, acc: seq<ResourceInfo>, indexes: seq<Index>)
    ensures acc <= Collect(entries, acc, indexes)
    ensures forall i :: |acc| <= i < |Collect(entries, acc, indexes)| ==> Collect(entries, acc, indexes)[i] in Listed(indexes, entries)
    decreases indexes
  {
    if indexes != [] {
      var next := UntilRepeat(acc, entries(indexes[0]));
      UntilRepeatExtends(acc, entries(indexes[0]));
      CollectExtends(entries, next, indexes[1..]);
      var all := Collect(entries, next, indexes[1..]);
      forall i | |acc| <= i < |all| ensures all[i] in Listed(indexes, entries) {
        if i < |next| { assert all[i] == next[i]; }
      }
    }
  }

  lemma {:induction false} UntilRepeatExtends(acc: seq<ResourceInfo>, infos: seq<ResourceInfo>)
    ensures acc <= UntilRepeat(acc, infos)
    ensures forall i :: |acc| <= i < |UntilRepeat(acc, infos)| ==> UntilRepeat(acc, infos)[i] in infos
    decreases infos
  {
    if infos != [] && !HasName(acc, infos[0].name) {
      UntilRepeatExtends(acc + [infos[0]], infos[1..]);
    }
  }

  lemma {:induction false} LosslessOnto(entries: Entries, pre: seq<ResourceInfo>, indexes: seq<Index>)
    requires Lossless(entries, pre, indexes)
    ensures Collect(entries, Firsts(pre), indexes) == Firsts(pre + Listed(indexes, entries))
    decreases indexes
  {
    if indexes == [] {
      assert pre + Listed(indexes, entries) == pre;
    } else {
      var here := entries(indexes[0]);
      RepeatCut(pre, here);
      LosslessOnto(entries, pre + here, indexes[1..]);
      Assoc(pre, here, Listed(indexes[1..], entries));
    }
  }

  /** Nothing lost means first-occurrence deduplication, whatever the ids are. */
  lemma LosslessIsFirsts(entries: Entries, indexes: seq<Index>)
    requires Lossless(entries, [], indexes)
    ensures Collect(entries, [], indexes) == Firsts(Listed(indexes, entries))
  {
    LosslessOnto(entries, [], indexes);
    assert [] + Listed(indexes, entries) == Listed(indexes, entries);
  }

  /** Does the collector deduplicate the first `k` indexes? */
  ghost predicate DedupedUpTo(entries: Entries, pre: seq<ResourceInfo>, indexes: seq<Index>, k: nat) {
    k <= |indexes| ==> Collect(entries, Firsts(pre), indexes[..k]) == Firsts(pre + Listed(indexes[..k], entries))
  }

  lemma UpToRest(entries: Entries, pre: seq<ResourceInfo>, indexes: seq<Index>, k: nat)
    requires k < |indexes| && NothingNewAfterRepeat(pre, entries(indexes[0]))
    ensures DedupedUpTo(entries, pre, indexes, k + 1) <==> DedupedUpTo(entries, pre + entries(indexes[0]), indexes[1..], k)
  {
    var here, init := entries(indexes[0]), indexes[..k + 1];
    RepeatCut(pre, here);
    assert init[1..] == indexes[1..][..k];
    Assoc(pre, here, Listed(init[1..], entries));
  }

  lemma UpToFirst(entries: Entries, pre: seq<ResourceInfo>, indexes: seq<Index>)
    requires indexes != []
    ensures DedupedUpTo(entries, pre, indexes, 1) <==> NothingNewAfterRepeat(pre, entries(indexes[0]))
  {
    var init := indexes[..1];
    RepeatCut(pre, entries(indexes[0]));
    var here := entries(indexes[0]);
    assert init[1..] == [] && init[0] == indexes[0];
    assert Listed(init, entries) == here + Listed([], entries) == here;
    assert Collect(entries, Firsts(pre), init) == Collect(entries, UntilRepeat(Firsts(pre), here), []);
  }

  lemma {:induction false} LosslessUpTo(entries: Entries, pre: seq<ResourceInfo>, indexes: seq<Index>)
    ensures (forall k :: DedupedUpTo(entries, pre, indexes, k)) <==> Lossless(entries, pre, indexes)
    decreases indexes
  {
    if indexes == [] {
      assert indexes[..0] == indexes && pre + Listed(indexes, entries) == pre;
    } else {
      var here := entries(indexes[0]);
      UpToFirst(entries, pre, indexes);
      assert indexes[..0] == [] && pre + Listed([], entries) == pre;
      if NothingNewAfterRepeat(pre, here) {
        LosslessUpTo(entries, pre + here, indexes[1..]);
        forall k: nat | k < |indexes|
          ensures DedupedUpTo(entries, pre, indexes, k + 1) <==> DedupedUpTo(entries, pre + here, indexes[1..], k)
        {
          UpToRest(entries, pre, indexes, k);
        }
        if Lossless(entries, pre, indexes) {
          forall k: nat ensures DedupedUpTo(entries, pre, indexes, k) {
            if 0 < k <= |indexes| {
              assert DedupedUpTo(entries, pre + here, indexes[1..], k - 1);
              UpToRest(entries, pre, indexes, k - 1);
            }
          }
        }
      }
    }
  }

  /**
   Rules and dashboards: the collector deduplicates by first occurrence, for the list and for every
   beginning of it, exactly when no index lists a new file after a repeated one.
   */
  lemma CollectDedupesIff(entries: Entries, indexes: seq<Index>)
    ensures (forall k :: 0 <= k <= |indexes| ==> Collect(entries, [], indexes[..k]) == Firsts(Listed(indexes[..k], entries)))
            <==> Lossless(entries, [], indexes)
  {
    LosslessUpTo(entries, [], indexes);
    forall k: nat | k <= |indexes|
      ensures DedupedUpTo(entries, [], indexes, k) <==> Collect(entries, [], indexes[..k]) == Firsts(Listed(indexes[..k], entries))
    {
      assert [] + Listed(indexes[..k], entries) == Listed(indexes[..k], entries);
    }
  }

  lemma {:induction false} CollectOnto(entries: Entries, pre: seq<ResourceInfo>, indexes: seq<Index>)
    requires Private(entries, indexes)
    ensures Collect(entries, Firsts(pre), indexes) == Firsts(pre + Listed(indexes, entries)) <==> Lossless(entries, pre, indexes)
    decreases indexes
  {
    if indexes == [] {
      assert pre + Listed(indexes, entries) == pre;
    } else {
      var here, rest := entries(indexes[0]), indexes[1..];
      RepeatCut(pre, here);
      Assoc(pre, here, Listed(rest, entries));
      if NothingNewAfterRepeat(pre, here) {
        CollectOnto(entries, pre + here, rest);
      } else {
        LossShows(entries, pre, indexes);
      }
    }
  }

  /** The first entry lost is this index's own; whatever stands in its place is not. */
  lemma LossShows(entries: Entries, pre: seq<ResourceInfo>, indexes: seq<Index>)
    requires Private(entries, indexes) && indexes != [] && !NothingNewAfterRepeat(pre, entries(indexes[0]))
    ensures Collect(entries, Firsts(pre), indexes) != Firsts(pre + Listed(indexes, entries))
  {
    var here, rest := entries(indexes[0]), indexes[1..];
    var cut, full := UntilRepeat(Firsts(pre), here), Firsts(pre + here);
    RepeatCut(pre, here);
    Assoc(pre, here, Listed(rest, entries));
    FirstsGrow(pre, here);
    FirstsGrow(pre + here, Listed(rest, entries));
    CollectExtends(entries, cut, rest);
    var p := |cut|;
    assert p < |full| && full[p] in here;
    assert Firsts(pre + here + Listed(rest, entries))[p] == full[p];
    var all := Collect(entries, cut, rest);
    if p < |all| {
      ListedOf(entries, rest, all[p]);
      var m :| 0 <= m < |rest| && all[p] in entries(rest[m]);
      assert rest[m] == indexes[m + 1];
    }
  }

  /** The same for the whole list alone, unless a later index happens to list the very entry that was lost. */
  lemma CollectIsFirstsIff(entries: Entries, indexes: seq<Index>)
    requires Private(entries, indexes)
    ensures Collect(entries, [], indexes) == Firsts(Listed(indexes, entries)) <==> Lossless(entries, [], indexes)
  {
    CollectOnto(entries, [], indexes);
    assert [] + Listed(indexes, entries) == Listed(indexes, entries);
  }

  /** Two indexes of one repository: the first loses dashboard "b", the second lists it again, and the result hides the loss. */
  lemma LossHidden(first: Index, second: Index)
    requires DashboardPaths(first) == ["a.yaml", "x/a.yaml", "b.yaml"] && DashboardPaths(second) == ["b.yaml"]
    requires first.baseUrl == second.baseUrl && first.accessToken == second.accessToken && first.tag == second.tag
    ensures Collect(DashboardEntries, [], [first, second]) == Firsts(Listed([first, second], DashboardEntries))
    ensures !Lossless(DashboardEntries, [], [first, second])
  {
    SampleNames();
    assert DashboardEntries(second) == [DashboardEntries(first)[2]];
    HiddenByRepeat(DashboardEntries, first, second);
  }

  lemma HiddenByRepeat(entries: Entries, first: Index, second: Index)
    requires var infos := entries(first); |infos| == 3 && infos[0].name == infos[1].name != infos[2].name
    requires entries(second) == [entries(first)[2]]
    ensures Collect(entries, [], [first, second]) == Firsts(Listed([first, second], entries))
    ensures !Lossless(entries, [], [first, second])
  {
    var infos, more := entries(first), entries(second);
    OneRepeat(infos);
    assert [first, second][1..] == [second] && [second][1..] == [];
    assert UntilRepeat([infos[0]], more) == [infos[0], infos[2]] by {
      assert more[1..] == [] && [infos[0]] + [more[0]] == [infos[0], infos[2]];
    }
    assert Collect(entries, [], [first, second]) == Collect(entries, [infos[0]], [second]) == Collect(entries, [infos[0], infos[2]], []);
    assert Listed([second], entries) == more + Listed([], entries) == more;
    assert Listed([first, second], entries) == infos + more == [infos[0], infos[1], infos[2], infos[2]];
    FourFirsts(infos[0], infos[1], infos[2]);
    assert HasName([] + infos[..1], infos[1].name) by { assert ([] + infos[..1])[0] == infos[0]; }
    assert !HasName([] + infos[..1], infos[2].name);
  }

  lemma FourFirsts(a: ResourceInfo, b: ResourceInfo, d: ResourceInfo)
    requires a.name == b.name != d.name
    ensures Firsts([a, b, d, d]) == [a, d]
  {
    FirstsSnoc([], a);
    FirstsSnoc([a], b);
    FirstsSnoc([a, b], d);
    FirstsSnoc([a, b, d], d);
    assert [] + [a] == [a] && [a] + [b] == [a, b] && [a, b] + [d] == [a, b, d] && [a, b, d] + [d] == [a, b, d, d];
    assert [a][0] == a && [a, b, d][2] == d;
  }

  lemma {:induction false} UntilRepeatDistinct(acc: seq<ResourceInfo>, infos: seq<ResourceInfo>)
    requires NamesDistinct(acc)
    ensures NamesDistinct(UntilRepeat(acc, infos))
    ensures NamesDistinct(acc + infos) ==> UntilRepeat(acc, infos) == acc + infos
    decreases infos
  {
    if infos == [] {
      assert acc + infos == acc;
    } else {
      assert acc + infos == acc + [infos[0]] + infos[1..];
      if HasName(acc, infos[0].name) {
        var i :| 0 <= i < |acc| && acc[i].name == infos[0].name;
        assert (acc + infos)[i].name == (acc + infos)[|acc|].name;
      } else {
        UntilRepeatDistinct(acc + [infos[0]], infos[1..]);
      }
    }
  }

  lemma {:induction false} CollectDistinctOnto(entries: Entries, acc: seq<ResourceInfo>, indexes: seq<Index>)
    requires NamesDistinct(acc)
    ensures NamesDistinct(Collect(entries, acc, indexes))
    ensures NamesDistinct(acc + Listed(indexes, entries)) ==> Collect(entries, acc, indexes) == acc + Listed(indexes, entries)
    decreases indexes
  {
    if indexes == [] {
      assert acc + Listed(indexes, entries) == acc;
    } else {
      var here, rest := entries(indexes[0]), Listed(indexes[1..], entries);
      UntilRepeatDistinct(acc, here);
      CollectDistinctOnto(entries, UntilRepeat(acc, here), indexes[1..]);
      Assoc(acc, here, rest);
      if NamesDistinct(acc + Listed(indexes, entries)) {
        DistinctPrefix(acc + here, rest);
      }
    }
  }

  /** Rules or dashboards: no name twice; and when no derived name repeats, one entry per listed path, in order. */
  lemma CollectDistinct(entries: Entries, indexes: seq<Index>)
    ensures NamesDistinct(Collect(entries, [], indexes))
    ensures NamesDistinct(Listed(indexes, entries)) ==> Collect(entries, [], indexes) == Listed(indexes, entries)
  {
    CollectDistinctOnto(entries, [], indexes);
    assert [] + Listed(indexes, entries) == Listed(indexes, entries);
  }

  lemma LostAfterRepeat(entries: Entries, index: Index)
    requires var infos := entries(index); |infos| == 3 && infos[0].name == infos[1].name != infos[2].name
    ensures var lost := entries(index)[2].name; !HasName(Collect(entries, [], [index]), lost) && HasName(Listed([index], entries), lost)
  {
    var infos := entries(index);
    OneRepeat(infos);
    assert [index][1..] == [];
    assert Collect(entries, [], [index]) == Collect(entries, UntilRepeat([], infos), []) == [infos[0]];
    assert Listed([index], entries) == infos + [];
    assert Listed([index], entries)[2] == infos[2];
  }

  /** A repeated file name costs the index every file after it: here rule "b" is never requested. */
  lemma RuleLost(index: Index)
    requires RulePaths(index) == ["a.yaml", "x/a.yaml", "b.yaml"]
    ensures !HasName(CollectRules([], [index]), "b") && HasName(Listed([index], RuleEntries), "b")
  {
    SampleNames();
    LostAfterRepeat(RuleEntries, index);
  }

  /** And here dashboard "b". */
  lemma DashboardLost(index: Index)
    requires DashboardPaths(index) == ["a.yaml", "x/a.yaml", "b.yaml"]
    ensures !HasName(Collect(DashboardEntries, [], [index]), "b") && HasName(Listed([index], DashboardEntries), "b")
  {
    SampleNames();
    LostAfterRepeat(DashboardEntries, index);
  }

  lemma SampleNames()
    ensures NameFromUrl("a.yaml") == "a" && NameFromUrl("x/a.yaml") == "a" && NameFromUrl("b.yaml") == "b"
  {
    NameOfFile("x", "a", "yaml");
    NameOfFile("x", "b", "yaml");
    assert "x/a.yaml" == "x" + "/" + "a" + "." + "yaml";
    assert "a.yaml" == "a" + "." + "yaml";
    assert "b.yaml" == "b" + "." + "yaml";
  }

  lemma OneRepeat(infos: seq<ResourceInfo>)
    requires |infos| > 1 && infos[0].name == infos[1].name
    ensures UntilRepeat([], infos) == [infos[0]]
  {
    assert [] + [infos[0]] == [infos[0]];
    assert [infos[0]][0].name == infos[1..][0].name;
  }
}
