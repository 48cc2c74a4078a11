/** The Alertmanager configuration compiled from the indexes, and where alerts end up under it. */
module AlertmanagerConfig {
  import opened Kube
  import opened Observability
  import Collectors
  import ResourceSync

  const IdLabel := ResourceSync.IdLabel
  const DefaultReceiver := "default-receiver"

  datatype Slot = PagerDuty | DeadMansSnitch | Smtp

  function SlotName(slot: Slot): string {
    match slot
    case PagerDuty => "pagerduty"
    case DeadMansSnitch => "deadmanssnitch"
    case Smtp => "smtp"
  }

  function ReceiverName(id: string, slot: Slot): string {
    id + "-" + SlotName(slot)
  }

  /** What a receiver notifies: a PagerDuty service key, a webhook URL, an e-mail address list, or nobody. */
  datatype Target = Nobody | ServiceKey(key: string) | Webhook(url: string) | Email(to: string)

  datatype Receiver = Receiver(name: string, target: Target)

  datatype AlertRoute = AlertRoute(receiver: string, repeatInterval: string, matchers: Labels)

  datatype Global = Global(resolveTimeout: string, smartHost: string, from: string, user: string, password: string)

  datatype AlertConfig = AlertConfig(global: Global, receivers: seq<Receiver>, routes: seq<AlertRoute>)

  /** A receiver and the route that leads to it, as one index contributes them. */
  datatype Entry = Entry(slot: Slot, receiver: Receiver, route: AlertRoute)

  /** What reading the secrets of one index yielded; None where the read failed. */
  datatype Reads = Reads(pagerKey: Option<string>, snitchUrl: Option<string>)

  // ---------- Specification ----------

  function PagerEntry(id: string, key: string): Entry {
    Entry(PagerDuty, Receiver(ReceiverName(id, PagerDuty), ServiceKey(key)),
          AlertRoute(ReceiverName(id, PagerDuty), "", map["severity" := "critical", IdLabel := id]))
  }

  function SnitchEntry(id: string, url: string): Entry {
    Entry(DeadMansSnitch, Receiver(ReceiverName(id, DeadMansSnitch), Webhook(url)),
          AlertRoute(ReceiverName(id, DeadMansSnitch), "5m", map["alertname" := "DeadMansSwitch", IdLabel := id]))
  }

  function SmtpEntry(id: string, to: seq<string>): Entry {
    Entry(Smtp, Receiver(ReceiverName(id, Smtp), Email(Collectors.Join(to, ','))),
          AlertRoute(ReceiverName(id, Smtp), "", map["severity" := "warning", IdLabel := id]))
  }

  /** What one index contributes. A failed read ends the index there, whatever else it asks for. */
  function Emit(cr: Cr, index: Index, got: Reads): seq<Entry> {
    if index.config.None? || index.config.value.alertmanager.None? then []
    else if !cr.PagerDutyDisabled() && got.pagerKey.None? then []
    else
      var am := index.config.value.alertmanager.value;
      var pager := if cr.PagerDutyDisabled() then [] else [PagerEntry(index.id, got.pagerKey.value)];
      if !cr.DeadMansSnitchDisabled() && got.snitchUrl.None? then pager
      else
        var snitch := if cr.DeadMansSnitchDisabled() then [] else [SnitchEntry(index.id, got.snitchUrl.value)];
        var smtp := if !cr.SmtpDisabled() && |am.smtpTo| > 0 && am.smtpFrom != "" then [SmtpEntry(index.id, am.smtpTo)] else [];
        pager + snitch + smtp
  }

  function EmitAll(cr: Cr, indexes: seq<Index>, got: seq<Reads>): seq<Entry>
    requires |indexes| == |got|
  {
    if indexes == [] then []
    else EmitAll(cr, indexes[..|indexes| - 1], got[..|got| - 1]) + Emit(cr, indexes[|indexes| - 1], got[|got| - 1])
  }

  function Receivers(entries: seq<Entry>): (r: seq<Receiver>)
    ensures |r| == |entries| && forall i :: 0 <= i < |r| ==> r[i] == entries[i].receiver
  {
    seq(|entries|, i requires 0 <= i < |entries| => entries[i].receiver)
  }

  function Routes(entries: seq<Entry>): (r: seq<AlertRoute>)
    ensures |r| == |entries| && forall i :: 0 <= i < |r| ==> r[i] == entries[i].route
  {
    seq(|entries|, i requires 0 <= i < |entries| => entries[i].route)
  }

  function AllReceivers(entries: seq<Entry>): seq<Receiver> {
    [Receiver(DefaultReceiver, Nobody)] + Receivers(entries)
  }

  function Compiled(global: Global, entries: seq<Entry>): AlertConfig {
    AlertConfig(global, AllReceivers(entries), Routes(entries))
  }

  // ---------- reconcileAlertmanagerSecret ----------

  datatype Result<+T> = Built(value: T) | Error | Panic

  function SecretNs(cr: Cr, ns: string): string {
    if ns != "" then ns else cr.ns
  }

  function Field(o: Obj, first: string, second: string): string {
    if first in o.data && o.data[first] != "" then o.data[first]
    else if second in o.data then o.data[second]
    else ""
  }

  /** What a store holds under the secret an index names for PagerDuty; nothing named is a dummy key. */
  function PagerKey(s: Store, cr: Cr, am: AlertmanagerIndex): Option<string> {
    var k := Key(Secret, SecretNs(cr, am.pagerDutyNs), am.pagerDutySecret);
    if am.pagerDutySecret == "" then Some("dummy")
    else if k in s then Some(Field(s[k], "PAGERDUTY_KEY", "serviceKey"))
    else None
  }

  function SnitchUrl(s: Store, cr: Cr, am: AlertmanagerIndex): Option<string> {
    var k := Key(Secret, SecretNs(cr, am.snitchNs), am.snitchSecret);
    if am.snitchSecret == "" then Some("http://dummy")
    else if k in s then Some(Field(s[k], "SNITCH_URL", "url"))
    else None
  }

  method GetPagerDutySecret(c: Cluster, cr: Cr, am: AlertmanagerIndex) returns (key: Option<string>)
    modifies c
    ensures c.store == old(c.store) && old(c.log) <= c.log && Still(c.log, |old(c.log)|, c.store)
    ensures old(c.calls) <= c.calls
    ensures key == PagerKey(c.store, cr, am) || (key.None? && c.Faulted(old(c.calls), c.calls))
  {
    if am.pagerDutySecret == "" { return Some("dummy"); }
    var reply := c.Get(Key(Secret, SecretNs(cr, am.pagerDutyNs), am.pagerDutySecret));
    key := if reply.Found? then Some(Field(reply.obj, "PAGERDUTY_KEY", "serviceKey")) else None;
  }

  method GetDeadMansSnitchUrl(c: Cluster, cr: Cr, am: AlertmanagerIndex) returns (url: Option<string>)
    modifies c
    ensures c.store == old(c.store) && old(c.log) <= c.log && Still(c.log, |old(c.log)|, c.store)
    ensures old(c.calls) <= c.calls
    ensures url == SnitchUrl(c.store, cr, am) || (url.None? && c.Faulted(old(c.calls), c.calls))
  {
    if am.snitchSecret == "" { return Some("http://dummy"); }
    var reply := c.Get(Key(Secret, SecretNs(cr, am.snitchNs), am.snitchSecret));
    url := if reply.Found? then Some(Field(reply.obj, "SNITCH_URL", "url")) else None;
  }

  /** The secrets an index names for PagerDuty and the dead man's snitch. */
  function NamedSecrets(cr: Cr, index: Index): set<Key> {
    if index.config.None? || index.config.value.alertmanager.None? then {}
    else
      var am := index.config.value.alertmanager.value;
      {Key(Secret, SecretNs(cr, am.pagerDutyNs), am.pagerDutySecret), Key(Secret, SecretNs(cr, am.snitchNs), am.snitchSecret)}
  }

  /** All that an index's secrets hold. */
  function Readable(s: Store, cr: Cr, index: Index): Reads {
    if index.config.None? || index.config.value.alertmanager.None? then Reads(None, None)
    else Reads(PagerKey(s, cr, index.config.value.alertmanager.value), SnitchUrl(s, cr, index.config.value.alertmanager.value))
  }

  function AllReadable(s: Store, cr: Cr, indexes: seq<Index>): (r: seq<Reads>)
    ensures |r| == |indexes| && forall i :: 0 <= i < |r| ==> r[i] == Readable(s, cr, indexes[i])
  {
    seq(|indexes|, i requires 0 <= i < |indexes| => Readable(s, cr, indexes[i]))
  }

  /** What was read is what the secrets that this index names hold. */
  ghost predicate GotFrom(s: Store, cr: Cr, index: Index, got: Reads) {
    && (got.pagerKey.Some? ==> got.pagerKey == Readable(s, cr, index).pagerKey)
    && (got.snitchUrl.Some? ==> got.snitchUrl == Readable(s, cr, index).snitchUrl)
  }

  ghost predicate AllGotFrom(s: Store, cr: Cr, indexes: seq<Index>, got: seq<Reads>) {
    |got| == |indexes| && forall i :: 0 <= i < |indexes| ==> GotFrom(s, cr, indexes[i], got[i])
  }

  /** Is there a first index to take the mail settings from? */
  predicate FirstIndexUsable(indexes: seq<Index>) {
    |indexes| > 0 && indexes[0].config.Some? && indexes[0].config.value.alertmanager.Some?
  }

  /** An empty secret stands for dummy credentials; a partial one leaves the rest blank. */
  function MailGlobal(o: Obj, from: string): Global {
    if Text(o, "password") == "" && Text(o, "username") == "" && Text(o, "host") == "" && Text(o, "port") == "" then
      Global("5m", "dummy:dummy", from, "dummy", "dummy")
    else
      Global("5m", Text(o, "host") + ":" + Text(o, "port"), from, Text(o, "username"), Text(o, "password"))
  }

  const NoMail := Global("5m", "", "", "", "")

  /** The first index is dereferenced whenever SMTP is on. */
  predicate Dereferenceable(cr: Cr, indexes: seq<Index>) {
    cr.SmtpDisabled() || FirstIndexUsable(indexes)
  }

  /** The secret with the mail credentials, if the first index leads to one. */
  function MailSecret(cr: Cr, indexes: seq<Index>): Option<Key> {
    if cr.SmtpDisabled() || !FirstIndexUsable(indexes) then None
    else
      var am := indexes[0].config.value.alertmanager.value;
      if am.smtpTo == [] || am.smtpFrom == "" || am.smtpSecret == "" then None
      else Some(Key(Secret, SecretNs(cr, am.smtpNs), am.smtpSecret))
  }

  /** The global section by what the store holds; None where the mail secret is absent. */
  function GlobalOf(s: Store, cr: Cr, indexes: seq<Index>): Option<Global>
    requires Dereferenceable(cr, indexes)
  {
    match MailSecret(cr, indexes)
    case Some(k) => if k in s then Some(MailGlobal(s[k], indexes[0].config.value.alertmanager.value.smtpFrom)) else None
    case None =>
      if cr.SmtpDisabled() then Some(NoMail)
      else
        var am := indexes[0].config.value.alertmanager.value;
        if am.smtpTo == [] || am.smtpFrom == "" then Some(NoMail) else Some(MailGlobal(Blank, am.smtpFrom))
  }

  /** The secret has this text under the key; an absent key reads as the empty text. */
  predicate Says(o: Obj, key: string, text: string) {
    if key in o.data then o.data[key] == text else text == ""
  }

  /** What an index's secrets give: nothing named a dummy, the preferred key if it is filled in, else the other one. */
  lemma SecretsRead(s: Store, cr: Cr, am: AlertmanagerIndex, preferred: string, other: string)
    ensures am.pagerDutySecret == "" ==> PagerKey(s, cr, am) == Some("dummy")
    ensures am.pagerDutySecret != "" ==>
      var k := Key(Secret, if am.pagerDutyNs == "" then cr.ns else am.pagerDutyNs, am.pagerDutySecret);
      && (k !in s <==> PagerKey(s, cr, am).None?)
      && (k in s && Says(s[k], "PAGERDUTY_KEY", preferred) && Says(s[k], "serviceKey", other) ==>
            PagerKey(s, cr, am) == Some(if preferred != "" then preferred else other))
    ensures am.snitchSecret == "" ==> SnitchUrl(s, cr, am) == Some("http://dummy")
    ensures am.snitchSecret != "" ==>
      var k := Key(Secret, if am.snitchNs == "" then cr.ns else am.snitchNs, am.snitchSecret);
      && (k !in s <==> SnitchUrl(s, cr, am).None?)
      && (k in s && Says(s[k], "SNITCH_URL", preferred) && Says(s[k], "url", other) ==>
            SnitchUrl(s, cr, am) == Some(if preferred != "" then preferred else other))
  {
  }

  /** Mail goes out through the server and under the account that the first index's secret names, in the fields so called. */
  lemma MailSettings(s: Store, cr: Cr, indexes: seq<Index>, am: AlertmanagerIndex, host: string, port: string, user: string, password: string)
    requires !Off(cr, Smtp) && |indexes| > 0 && indexes[0].config.Some? && indexes[0].config.value.alertmanager == Some(am)
    requires am.smtpTo != [] && am.smtpFrom != "" && am.smtpSecret != ""
    ensures
      var k := Key(Secret, if am.smtpNs == "" then cr.ns else am.smtpNs, am.smtpSecret);
      && (k !in s <==> GlobalOf(s, cr, indexes).None?)
      && (k in s && Says(s[k], "host", host) && Says(s[k], "port", port) && Says(s[k], "username", user) && Says(s[k], "password", password) ==>
            GlobalOf(s, cr, indexes) == Some(
              if host == port == user == password == "" then Global("5m", "dummy:dummy", am.smtpFrom, "dummy", "dummy")
              else Global("5m", host + ":" + port, am.smtpFrom, user, password)))
  {
  }

  /** No mail settings where mail is switched off or the first index names no recipient or no sender; dummies where it names no secret. */
  lemma NoMailSettings(s: Store, cr: Cr, indexes: seq<Index>)
    ensures Off(cr, Smtp) ==> GlobalOf(s, cr, indexes) == Some(Global("5m", "", "", "", ""))
    ensures !Off(cr, Smtp) && |indexes| > 0 && indexes[0].config.Some? && indexes[0].config.value.alertmanager.Some? ==>
      var am := indexes[0].config.value.alertmanager.value;
      && (am.smtpTo == [] || am.smtpFrom == "" ==> GlobalOf(s, cr, indexes) == Some(Global("5m", "", "", "", "")))
      && (am.smtpTo != [] && am.smtpFrom != "" && am.smtpSecret == "" ==>
            GlobalOf(s, cr, indexes) == Some(Global("5m", "dummy:dummy", am.smtpFrom, "dummy", "dummy")))
  {
  }

  method CreateGlobalConfig(c: Cluster, cr: Cr, indexes: seq<Index>) returns (r: Result<Global>)
    modifies c
    ensures c.store == old(c.store) && old(c.log) <= c.log && Still(c.log, |old(c.log)|, c.store)
    ensures old(c.calls) <= c.calls && (r.Panic? <==> !Dereferenceable(cr, indexes))
    ensures r.Built? ==> GlobalOf(c.store, cr, indexes) == Some(r.value)
    ensures c.Reliable() && r.Error? ==> GlobalOf(c.store, cr, indexes).None?
  {
    if cr.SmtpDisabled() { return Built(NoMail); }
    if !FirstIndexUsable(indexes) { return Panic; }
    var am := indexes[0].config.value.alertmanager.value;
    if am.smtpTo == [] || am.smtpFrom == "" { return Built(NoMail); }
    if am.smtpSecret == "" { return Built(MailGlobal(Blank, am.smtpFrom)); }
    var reply := c.Get(Key(Secret, SecretNs(cr, am.smtpNs), am.smtpSecret));
    if !reply.Found? { return Error; }
    return Built(MailGlobal(reply.obj, am.smtpFrom));
  }

  /** One turn of the compile loop; leaving the block is the source's continue with the next index. */
  method CompileIndex(c: Cluster, cr: Cr, index: Index) returns (receivers: seq<Receiver>, routes: seq<AlertRoute>, ghost got: Reads)
    modifies c
    ensures c.store == old(c.store) && old(c.log) <= c.log && Still(c.log, |old(c.log)|, c.store)
    ensures receivers == Receivers(Emit(cr, index, got)) && routes == Routes(Emit(cr, index, got))
    ensures GotFrom(c.store, cr, index, got)
    ensures old(c.calls) <= c.calls && (got == Readable(c.store, cr, index) || c.Faulted(old(c.calls), c.calls))
  {
    receivers, routes, got := [], [], Readable(c.store, cr, index);
    ghost var entries: seq<Entry> := [];
    label turn: {
      if index.config.None? || index.config.value.alertmanager.None? { break turn; }
      var am := index.config.value.alertmanager.value;

      if !cr.PagerDutyDisabled() {
        var key := GetPagerDutySecret(c, cr, am);
        got := got.(pagerKey := key);
        if key.None? { break turn; }
        var name := index.id + "-" + "pagerduty";
        receivers := receivers + [Receiver(name, ServiceKey(key.value))];
        routes := routes + [AlertRoute(name, "", map["severity" := "critical", IdLabel := index.id])];
        Append(entries, PagerEntry(index.id, key.value));
        entries := entries + [PagerEntry(index.id, key.value)];
      }

      if !cr.DeadMansSnitchDisabled() {
        var url := GetDeadMansSnitchUrl(c, cr, am);
        got := got.(snitchUrl := url);
        if url.None? { break turn; }
        var name := index.id + "-" + "deadmanssnitch";
        receivers := receivers + [Receiver(name, Webhook(url.value))];
        routes := routes + [AlertRoute(name, "5m", map["alertname" := "DeadMansSwitch", IdLabel := index.id])];
        Append(entries, SnitchEntry(index.id, url.value));
        entries := entries + [SnitchEntry(index.id, url.value)];
      }

      if !cr.SmtpDisabled() && |am.smtpTo| > 0 && am.smtpFrom != "" {
        var name := index.id + "-" + "smtp";
        receivers := receivers + [Receiver(name, Email(Collectors.Join(am.smtpTo, ',')))];
        routes := routes + [AlertRoute(name, "", map["severity" := "warning", IdLabel := index.id])];
        Append(entries, SmtpEntry(index.id, am.smtpTo));
        entries := entries + [SmtpEntry(index.id, am.smtpTo)];
      }
    }
    assert entries == Emit(cr, index, got);
  }

  lemma Append(entries: seq<Entry>, e: Entry)
    ensures Receivers(entries + [e]) == Receivers(entries) + [e.receiver]
    ensures Routes(entries + [e]) == Routes(entries) + [e.route]
  {
  }

  lemma AppendAll(a: seq<Entry>, b: seq<Entry>)
    ensures AllReceivers(a + b) == AllReceivers(a) + Receivers(b) && Routes(a + b) == Routes(a) + Routes(b)
  {
  }

  lemma EmitOneMore(cr: Cr, indexes: seq<Index>, i: nat, got: seq<Reads>, mine: Reads)
    requires |got| == i < |indexes|
    ensures
      var before, here := EmitAll(cr, indexes[..i], got), Emit(cr, indexes[i], mine);
      var after := EmitAll(cr, indexes[..i + 1], got + [mine]);
      AllReceivers(after) == AllReceivers(before) + Receivers(here) && Routes(after) == Routes(before) + Routes(here)
  {
    var upTo, more := indexes[..i + 1], got + [mine];
    assert upTo[..i] == indexes[..i] && more[..i] == got && upTo[i] == indexes[i] && more[i] == mine;
    EmitSnoc(cr, upTo, more, i);
    AppendAll(EmitAll(cr, indexes[..i], got), Emit(cr, indexes[i], mine));
  }

  /** An index got all that its secrets hold, unless a call numbered from `from` up to `to` failed. */
  ghost predicate AccountedAt(c: Cluster, s: Store, cr: Cr, index: Index, mine: Reads, from: nat, to: nat) {
    from <= to && GotFrom(s, cr, index, mine) && (mine == Readable(s, cr, index) || c.Faulted(from, to))
  }

  /** `marks` are the call numbers at which the turns of the loop began: what an index missed, a call of its own turn missed. */
  ghost predicate Accounted(c: Cluster, s: Store, cr: Cr, indexes: seq<Index>, got: seq<Reads>, marks: seq<nat>) {
    && |marks| == |indexes| + 1 && |got| == |indexes|
    && forall i :: 0 <= i < |indexes| ==> AccountedAt(c, s, cr, indexes[i], got[i], marks[i], marks[i + 1])
  }

  lemma AccountedOn(c: Cluster, s: Store, cr: Cr, indexes: seq<Index>, i: nat, got: seq<Reads>, mine: Reads, marks: seq<nat>, mark: nat)
    requires i < |indexes| && Accounted(c, s, cr, indexes[..i], got, marks) && AccountedAt(c, s, cr, indexes[i], mine, marks[i], mark)
    ensures Accounted(c, s, cr, indexes[..i + 1], got + [mine], marks + [mark])
  {
    var upTo, all, ends := indexes[..i + 1], got + [mine], marks + [mark];
    forall j | 0 <= j < |upTo| ensures AccountedAt(c, s, cr, upTo[j], all[j], ends[j], ends[j + 1]) {
      if j < i { assert AccountedAt(c, s, cr, indexes[..i][j], got[j], marks[j], marks[j + 1]); }
    }
  }

  lemma AccountedGot(c: Cluster, s: Store, cr: Cr, indexes: seq<Index>, got: seq<Reads>, marks: seq<nat>)
    requires Accounted(c, s, cr, indexes, got, marks)
    ensures AllGotFrom(s, cr, indexes, got)
  {
    forall i | 0 <= i < |indexes| ensures GotFrom(s, cr, indexes[i], got[i]) {
      assert AccountedAt(c, s, cr, indexes[i], got[i], marks[i], marks[i + 1]);
    }
  }

  lemma AccountedHealthy(c: Cluster, s: Store, cr: Cr, indexes: seq<Index>, got: seq<Reads>, marks: seq<nat>)
    requires Accounted(c, s, cr, indexes, got, marks) && c.Reliable()
    ensures got == AllReadable(s, cr, indexes)
  {
    forall i | 0 <= i < |indexes| ensures got[i] == AllReadable(s, cr, indexes)[i] {
      assert AccountedAt(c, s, cr, indexes[i], got[i], marks[i], marks[i + 1]) && !c.Faulted(marks[i], marks[i + 1]);
    }
  }

  /** Receivers and routes as far as the loop has got. */
  ghost predicate Gathers(cr: Cr, indexes: seq<Index>, got: seq<Reads>, receivers: seq<Receiver>, routes: seq<AlertRoute>) {
    |got| == |indexes| && receivers == AllReceivers(EmitAll(cr, indexes, got)) && routes == Routes(EmitAll(cr, indexes, got))
  }

  lemma GathersOn(cr: Cr, indexes: seq<Index>, i: nat, got: seq<Reads>, mine: Reads,
                  receivers: seq<Receiver>, routes: seq<AlertRoute>, more: seq<Receiver>, ways: seq<AlertRoute>)
    requires i < |indexes| && Gathers(cr, indexes[..i], got, receivers, routes)
    requires more == Receivers(Emit(cr, indexes[i], mine)) && ways == Routes(Emit(cr, indexes[i], mine))
    ensures Gathers(cr, indexes[..i + 1], got + [mine], receivers + more, routes + ways)
  {
    EmitOneMore(cr, indexes, i, got, mine);
  }

  /** The compile loop. `got` records which secrets could be read. */
  method CompileIndexes(c: Cluster, cr: Cr, indexes: seq<Index>)
    returns (receivers: seq<Receiver>, routes: seq<AlertRoute>, ghost got: seq<Reads>, ghost marks: seq<nat>)
    modifies c
    ensures c.store == old(c.store) && old(c.log) <= c.log && Still(c.log, |old(c.log)|, c.store)
    ensures Accounted(c, c.store, cr, indexes, got, marks) && marks[0] == old(c.calls) && marks[|indexes|] == c.calls
    ensures receivers == AllReceivers(EmitAll(cr, indexes, got))
    ensures routes == Routes(EmitAll(cr, indexes, got))
  {
    receivers, routes, got, marks := [Receiver(DefaultReceiver, Nobody)], [], [], [c.calls];
    for i := 0 to |indexes|
      invariant c.store == old(c.store) && old(c.log) <= c.log && Still(c.log, |old(c.log)|, c.store)
      invariant Accounted(c, c.store, cr, indexes[..i], got, marks) && marks[0] == old(c.calls) && marks[i] == c.calls
      invariant Gathers(cr, indexes[..i], got, receivers, routes)
    {
      var more, ways, mine := CompileIndex(c, cr, indexes[i]);
      GathersOn(cr, indexes, i, got, mine, receivers, routes, more, ways);
      AccountedOn(c, c.store, cr, indexes, i, got, mine, marks, c.calls);
      receivers, routes, got, marks := receivers + more, routes + ways, got + [mine], marks + [c.calls];
    }
    assert indexes[..|indexes|] == indexes;
  }

  /**
   The configuration is what the specification says for the secrets that could be read; an index misses one
   that exists only if a call made for that index failed. So in a healthy cluster the store decides the whole
   configuration, or the one mail secret whose absence is an error.
   */
  method CompileConfig(c: Cluster, cr: Cr, indexes: seq<Index>)
    returns (r: Result<AlertConfig>, ghost got: seq<Reads>, ghost marks: seq<nat>)
    modifies c
    ensures c.store == old(c.store) && old(c.log) <= c.log && Still(c.log, |old(c.log)|, c.store)
    ensures r.Panic? <==> !Dereferenceable(cr, indexes)
    ensures r.Built? ==> IsConfig(c.store, cr, indexes, got, r.value) && Accounted(c, c.store, cr, indexes, got, marks)
    ensures r.Built? ==> old(c.calls) <= marks[0] && marks[|indexes|] == c.calls
    ensures c.Reliable() && r.Built? ==> got == AllReadable(c.store, cr, indexes)
    ensures c.Reliable() && r.Error? ==> GlobalOf(c.store, cr, indexes).None?
  {
    got, marks := [], [];
    var global := CreateGlobalConfig(c, cr, indexes);
    match global {
      case Error => r := Error;
      case Panic => r := Panic;
      case Built(section) =>
        var receivers, routes;
        receivers, routes, got, marks := CompileIndexes(c, cr, indexes);
        AccountedGot(c, c.store, cr, indexes, got, marks);
        if c.Reliable() { AccountedHealthy(c, c.store, cr, indexes, got, marks); }
        r := Built(AlertConfig(section, receivers, routes));
    }
  }

  /** The configuration for a store, as far as its secrets were read. */
  ghost predicate IsConfig(s: Store, cr: Cr, indexes: seq<Index>, got: seq<Reads>, config: AlertConfig) {
    && Dereferenceable(cr, indexes)
    && GlobalOf(s, cr, indexes).Some?
    && AllGotFrom(s, cr, indexes, got)
    && config == Compiled(GlobalOf(s, cr, indexes).value, EmitAll(cr, indexes, got))
  }

  // ---------- Closure ----------

  /** The entry is this index's: named after it, and its route asks for the index's id. */
  predicate Proper(e: Entry, id: string) {
    && e.receiver.name == e.route.receiver == ReceiverName(id, e.slot)
    && IdLabel in e.route.matchers && e.route.matchers[IdLabel] == id
  }

  lemma EmitShape(cr: Cr, index: Index, got: Reads)
    ensures forall k :: 0 <= k < |Emit(cr, index, got)| ==> Proper(Emit(cr, index, got)[k], index.id)
    ensures forall j, k :: 0 <= j < k < |Emit(cr, index, got)| ==> Emit(cr, index, got)[j].slot != Emit(cr, index, got)[k].slot
  {
  }

  lemma NameInjective(a: string, s: Slot, b: string, t: Slot)
    ensures ReceiverName(a, s) == ReceiverName(b, t) ==> a == b && s == t
    ensures ReceiverName(a, s) != DefaultReceiver
  {
    var x, y := ReceiverName(a, s), ReceiverName(b, t);
    assert x[|x| - 1] == SlotName(s)[|SlotName(s)| - 1];
    assert y[|y| - 1] == SlotName(t)[|SlotName(t)| - 1];
    assert DefaultReceiver[|DefaultReceiver| - 1] == 'r';
    if x == y {
      assert s == t;
      assert |a| == |b|;
      assert a == x[..|a|] && b == y[..|b|];
    }
  }

  /** Every entry comes from some index. */
  lemma {:induction false} Owner(cr: Cr, indexes: seq<Index>, got: seq<Reads>, k: nat) returns (x: nat)
    requires |indexes| == |got| && k < |EmitAll(cr, indexes, got)|
    ensures x < |indexes| && EmitAll(cr, indexes, got)[k] in Emit(cr, indexes[x], got[x])
    ensures Proper(EmitAll(cr, indexes, got)[k], indexes[x].id)
  {
    var n := |indexes| - 1;
    var before := EmitAll(cr, indexes[..n], got[..n]);
    if k < |before| {
      x := Owner(cr, indexes[..n], got[..n], k);
    } else {
      x := n;
      EmitShape(cr, indexes[n], got[n]);
    }
  }

  ghost predicate EntryNamesDistinct(entries: seq<Entry>) {
    forall j, k :: 0 <= j < k < |entries| ==> entries[j].receiver.name != entries[k].receiver.name
  }

  lemma {:induction false} NamesAreDistinct(cr: Cr, indexes: seq<Index>, got: seq<Reads>)
    requires |indexes| == |got| && DistinctIds(indexes)
    ensures EntryNamesDistinct(EmitAll(cr, indexes, got))
  {
    if indexes != [] {
      var n := |indexes| - 1;
      var before, here := EmitAll(cr, indexes[..n], got[..n]), Emit(cr, indexes[n], got[n]);
      NamesAreDistinct(cr, indexes[..n], got[..n]);
      EmitShape(cr, indexes[n], got[n]);
      forall j, k | 0 <= j < |before| && 0 <= k < |here| ensures before[j].receiver.name != here[k].receiver.name {
        var x := Owner(cr, indexes[..n], got[..n], j);
        NameInjective(indexes[x].id, before[j].slot, indexes[n].id, here[k].slot);
      }
      forall j, k | 0 <= j < k < |here| ensures here[j].receiver.name != here[k].receiver.name {
        NameInjective(indexes[n].id, here[j].slot, indexes[n].id, here[k].slot);
      }
    }
  }

  ghost predicate WellNamed(entries: seq<Entry>) {
    forall k :: 0 <= k < |entries| ==>
      entries[k].receiver.name == entries[k].route.receiver && entries[k].receiver.name != DefaultReceiver
  }

  lemma EntriesNamed(cr: Cr, indexes: seq<Index>, got: seq<Reads>)
    requires |indexes| == |got|
    ensures WellNamed(EmitAll(cr, indexes, got))
  {
    var entries := EmitAll(cr, indexes, got);
    forall k | 0 <= k < |entries|
      ensures entries[k].receiver.name == entries[k].route.receiver && entries[k].receiver.name != DefaultReceiver
    {
      var x := Owner(cr, indexes, got, k);
      NameInjective(indexes[x].id, entries[k].slot, indexes[x].id, entries[k].slot);
    }
  }

  ghost predicate ReceiversDistinct(receivers: seq<Receiver>) {
    forall j, k :: 0 <= j < k < |receivers| ==> receivers[j].name != receivers[k].name
  }

  /** Each route leads to the receiver declared one place further on; the first receiver is the default. */
  ghost predicate RoutesDeclared(config: AlertConfig) {
    && |config.receivers| == |config.routes| + 1
    && forall k :: 0 <= k < |config.routes| ==> config.receivers[k + 1].name == config.routes[k].receiver
  }

  lemma ClosedOver(global: Global, entries: seq<Entry>)
    requires WellNamed(entries)
    ensures
      var config := Compiled(global, entries);
      RoutesDeclared(config) && (EntryNamesDistinct(entries) ==> ReceiversDistinct(config.receivers))
  {
    var receivers := AllReceivers(entries);
    assert forall k :: 0 < k < |receivers| ==> receivers[k] == entries[k - 1].receiver;
  }

  /** Every route leads to a declared receiver, for all indexes and all patterns of unreadable secrets. */
  lemma Closed(cr: Cr, indexes: seq<Index>, got: seq<Reads>, global: Global)
    requires |indexes| == |got|
    ensures RoutesDeclared(Compiled(global, EmitAll(cr, indexes, got)))
  {
    EntriesNamed(cr, indexes, got);
    ClosedOver(global, EmitAll(cr, indexes, got));
  }

  /** With distinct index ids, no two receivers share a name. */
  lemma ReceiverNamesUnique(cr: Cr, indexes: seq<Index>, got: seq<Reads>, global: Global)
    requires |indexes| == |got| && DistinctIds(indexes)
    ensures ReceiversDistinct(Compiled(global, EmitAll(cr, indexes, got)).receivers)
  {
    NamesAreDistinct(cr, indexes, got);
    EntriesNamed(cr, indexes, got);
    ClosedOver(global, EmitAll(cr, indexes, got));
  }

  // ---------- Routing ----------

  /** Does a route's matcher accept an alert? */
  predicate Accepts(matchers: Labels, alert: Labels) {
    forall l :: l in matchers ==> l in alert && alert[l] == matchers[l]
  }

  /** First-match routing: the position of the route an alert takes, or |routes| for the root. */
  function FirstMatch(routes: seq<AlertRoute>, alert: Labels): (k: nat)
    ensures k <= |routes|
    ensures k < |routes| ==> Accepts(routes[k].matchers, alert)
    ensures forall j :: 0 <= j < k ==> !Accepts(routes[j].matchers, alert)
  {
    if routes == [] || Accepts(routes[0].matchers, alert) then 0 else 1 + FirstMatch(routes[1..], alert)
  }

  function RoutedTo(config: AlertConfig, alert: Labels): string {
    var k := FirstMatch(config.routes, alert);
    if k < |config.routes| then config.routes[k].receiver else DefaultReceiver
  }

  /** What the alert sets off: the target of the receiver declared under the name it is routed to. */
  ghost predicate Notifies(config: AlertConfig, alert: Labels, target: Target) {
    exists k :: 0 <= k < |config.receivers| && config.receivers[k] == Receiver(RoutedTo(config, alert), target)
  }

  /** The route an alert takes is one its own index emitted. */
  lemma OwnRoute(cr: Cr, indexes: seq<Index>, got: seq<Reads>, alert: Labels)
    requires |indexes| == |got| && IdLabel in alert
    ensures
      var entries := EmitAll(cr, indexes, got);
      var k := FirstMatch(Routes(entries), alert);
      k < |entries| ==> Proper(entries[k], alert[IdLabel])
  {
    var entries := EmitAll(cr, indexes, got);
    var k := FirstMatch(Routes(entries), alert);
    if k < |entries| {
      var x := Owner(cr, indexes, got, k);
    }
  }

  /** An alert that carries index X's id is routed to one of X's own receivers or to the default. */
  lemma Isolation(cr: Cr, indexes: seq<Index>, got: seq<Reads>, global: Global, id: string, alert: Labels)
    requires |indexes| == |got|
    requires IdLabel in alert && alert[IdLabel] == id
    ensures
      var to := RoutedTo(Compiled(global, EmitAll(cr, indexes, got)), alert);
      to == DefaultReceiver || exists slot :: to == ReceiverName(id, slot)
  {
    OwnRoute(cr, indexes, got, alert);
  }

  /** Something that an index of this id asks to be notified. */
  ghost predicate TargetOf(cr: Cr, indexes: seq<Index>, got: seq<Reads>, id: string, target: Target)
    requires |indexes| == |got|
  {
    exists y, e :: 0 <= y < |indexes| && indexes[y].id == id && e in Emit(cr, indexes[y], got[y]) && e.receiver.target == target
  }

  /** And what it sets off is nobody, or something the secrets and addresses of an index with X's id gave. */
  lemma NoForeignTarget(cr: Cr, indexes: seq<Index>, got: seq<Reads>, global: Global, id: string, alert: Labels, target: Target)
    requires |indexes| == |got|
    requires IdLabel in alert && alert[IdLabel] == id
    requires Notifies(Compiled(global, EmitAll(cr, indexes, got)), alert, target)
    ensures target == Nobody || TargetOf(cr, indexes, got, id, target)
  {
    var entries := EmitAll(cr, indexes, got);
    var config := Compiled(global, entries);
    var k :| 0 <= k < |config.receivers| && config.receivers[k] == Receiver(RoutedTo(config, alert), target);
    if k > 0 {
      var e, m := entries[k - 1], FirstMatch(config.routes, alert);
      assert e.receiver == config.receivers[k];
      NotDefault(cr, indexes, got, k - 1);
      OwnRoute(cr, indexes, got, alert);
      assert m < |entries| && RoutedTo(config, alert) == entries[m].route.receiver;
      var y := ReceiverOwner(cr, indexes, got, k - 1, id, entries[m].slot);
      assert e in Emit(cr, indexes[y], got[y]) && e.receiver.target == target;
    }
  }

  lemma NotDefault(cr: Cr, indexes: seq<Index>, got: seq<Reads>, k: nat)
    requires |indexes| == |got| && k < |EmitAll(cr, indexes, got)|
    ensures EmitAll(cr, indexes, got)[k].receiver.name != DefaultReceiver
  {
    var e := EmitAll(cr, indexes, got)[k];
    var y := Owner(cr, indexes, got, k);
    NameInjective(indexes[y].id, e.slot, indexes[y].id, e.slot);
  }

  /** A receiver named after an id is one that an index of this id emitted. */
  lemma ReceiverOwner(cr: Cr, indexes: seq<Index>, got: seq<Reads>, k: nat, id: string, slot: Slot) returns (y: nat)
    requires |indexes| == |got| && k < |EmitAll(cr, indexes, got)|
    requires EmitAll(cr, indexes, got)[k].receiver.name == ReceiverName(id, slot)
    ensures y < |indexes| && indexes[y].id == id && EmitAll(cr, indexes, got)[k] in Emit(cr, indexes[y], got[y])
  {
    var e := EmitAll(cr, indexes, got)[k];
    y := Owner(cr, indexes, got, k);
    NameInjective(indexes[y].id, e.slot, id, slot);
  }

  // ---------- Which receiver gets an alert ----------

  /** The stack does without this kind of receiver. */
  predicate Off(cr: Cr, slot: Slot) {
    cr.selfContained.Some? && Some(true) == match slot
      case PagerDuty => cr.selfContained.value.disablePagerDuty
      case DeadMansSnitch => cr.selfContained.value.disableDeadmansSnitch
      case Smtp => cr.selfContained.value.disableSmtp
  }

  /** Does this index get its receiver of this kind? A secret that cannot be read ends the index there. */
  predicate Due(cr: Cr, index: Index, got: Reads, slot: Slot) {
    && index.config.Some? && index.config.value.alertmanager.Some? && !Off(cr, slot)
    && var am := index.config.value.alertmanager.value;
       match slot
       case PagerDuty => got.pagerKey.Some?
       case DeadMansSnitch => (Off(cr, PagerDuty) || got.pagerKey.Some?) && got.snitchUrl.Some?
       case Smtp =>
         && (Off(cr, PagerDuty) || got.pagerKey.Some?) && (Off(cr, DeadMansSnitch) || got.snitchUrl.Some?)
         && am.smtpTo != [] && am.smtpFrom != ""
  }

  /** Whom that receiver is to notify. */
  function Asked(cr: Cr, index: Index, got: Reads, slot: Slot): Target
    requires Due(cr, index, got, slot)
  {
    match slot
    case PagerDuty => ServiceKey(got.pagerKey.value)
    case DeadMansSnitch => Webhook(got.snitchUrl.value)
    case Smtp => Email(Collectors.Join(index.config.value.alertmanager.value.smtpTo, ','))
  }

  /** The alerts that each kind of receiver is for, and how often the snitch wants to be fed. */
  predicate Wants(alert: Labels, slot: Slot) {
    match slot
    case PagerDuty => "severity" in alert && alert["severity"] == "critical"
    case DeadMansSnitch => "alertname" in alert && alert["alertname"] == "DeadMansSwitch"
    case Smtp => "severity" in alert && alert["severity"] == "warning"
  }

  function Repeats(slot: Slot): string { if slot.DeadMansSnitch? then "5m" else "" }

  function Rank(slot: Slot): nat {
    match slot
    case PagerDuty => 0
    case DeadMansSnitch => 1
    case Smtp => 2
  }

  /** An entry is what its kind calls for. */
  ghost predicate Fitting(cr: Cr, index: Index, got: Reads, e: Entry) {
    && Due(cr, index, got, e.slot)
    && e.receiver == Receiver(ReceiverName(index.id, e.slot), Asked(cr, index, got, e.slot))
    && e.route.receiver == ReceiverName(index.id, e.slot) && e.route.repeatInterval == Repeats(e.slot)
    && forall alert :: Accepts(e.route.matchers, alert) <==> IdLabel in alert && alert[IdLabel] == index.id && Wants(alert, e.slot)
  }

  lemma PagerFits(cr: Cr, index: Index, got: Reads)
    requires Due(cr, index, got, PagerDuty)
    ensures Fitting(cr, index, got, PagerEntry(index.id, got.pagerKey.value))
  {
  }

  lemma SnitchFits(cr: Cr, index: Index, got: Reads)
    requires Due(cr, index, got, DeadMansSnitch)
    ensures Fitting(cr, index, got, SnitchEntry(index.id, got.snitchUrl.value))
  {
  }

  lemma SmtpFits(cr: Cr, index: Index, got: Reads)
    requires Due(cr, index, got, Smtp)
    ensures Fitting(cr, index, got, SmtpEntry(index.id, index.config.value.alertmanager.value.smtpTo))
  {
  }

  /** What an index contributes: exactly the kinds that are due, in the order of their rank. */
  lemma EmitFits(cr: Cr, index: Index, got: Reads)
    ensures forall e :: e in Emit(cr, index, got) ==> Fitting(cr, index, got, e)
    ensures forall slot :: Due(cr, index, got, slot) ==> exists e :: e in Emit(cr, index, got) && e.slot == slot
    ensures forall j, k :: 0 <= j < k < |Emit(cr, index, got)| ==> Rank(Emit(cr, index, got)[j].slot) < Rank(Emit(cr, index, got)[k].slot)
  {
    var all := Emit(cr, index, got);
    if Due(cr, index, got, PagerDuty) {
      PagerFits(cr, index, got);
      assert all[0] == PagerEntry(index.id, got.pagerKey.value);
    }
    if Due(cr, index, got, DeadMansSnitch) {
      SnitchFits(cr, index, got);
      var k := if Off(cr, PagerDuty) then 0 else 1;
      assert all[k] == SnitchEntry(index.id, got.snitchUrl.value);
    }
    if Due(cr, index, got, Smtp) {
      SmtpFits(cr, index, got);
      assert all[|all| - 1] == SmtpEntry(index.id, index.config.value.alertmanager.value.smtpTo);
    }
  }

  lemma {:induction false} FirstMatchAppend(a: seq<AlertRoute>, b: seq<AlertRoute>, alert: Labels)
    ensures FirstMatch(a + b, alert) == if FirstMatch(a, alert) < |a| then FirstMatch(a, alert) else |a| + FirstMatch(b, alert)
  {
    if a == [] {
      assert a + b == b;
    } else {
      assert (a + b)[1..] == a[1..] + b;
      FirstMatchAppend(a[1..], b, alert);
    }
  }

  lemma EmitSnoc(cr: Cr, indexes: seq<Index>, got: seq<Reads>, n: nat)
    requires |indexes| == |got| == n + 1
    ensures EmitAll(cr, indexes, got) == EmitAll(cr, indexes[..n], got[..n]) + Emit(cr, indexes[n], got[n])
  {
  }

  /** What `before`, `here` and something after it make. */
  ghost predicate Splits(all: seq<Entry>, before: seq<Entry>, here: seq<Entry>, tail: seq<Entry>) {
    all == before + (here + tail)
  }

  lemma SplitAtEnd(all: seq<Entry>, before: seq<Entry>, here: seq<Entry>)
    requires all == before + here
    ensures Splits(all, before, here, [])
  {
    assert here + [] == here;
  }

  lemma SplitFurther(all: seq<Entry>, init: seq<Entry>, before: seq<Entry>, here: seq<Entry>, tail: seq<Entry>, last: seq<Entry>)
    requires Splits(init, before, here, tail) && all == init + last
    ensures Splits(all, before, here, tail + last)
  {
    Regroup(before, here, tail, last);
  }

  lemma {:induction false} EmitSplit(cr: Cr, indexes: seq<Index>, got: seq<Reads>, x: nat) returns (tail: seq<Entry>)
    requires |indexes| == |got| && x < |indexes|
    ensures Splits(EmitAll(cr, indexes, got), EmitAll(cr, indexes[..x], got[..x]), Emit(cr, indexes[x], got[x]), tail)
  {
    var n := |indexes| - 1;
    EmitSnoc(cr, indexes, got, n);
    if x == n {
      tail := [];
      SplitAtEnd(EmitAll(cr, indexes, got), EmitAll(cr, indexes[..x], got[..x]), Emit(cr, indexes[x], got[x]));
    } else {
      var init, rest := indexes[..n], got[..n];
      var t := EmitSplit(cr, init, rest, x);
      assert init[..x] == indexes[..x] && rest[..x] == got[..x] && init[x] == indexes[x] && rest[x] == got[x];
      var last := Emit(cr, indexes[n], got[n]);
      tail := t + last;
      SplitFurther(EmitAll(cr, indexes, got), EmitAll(cr, init, rest), EmitAll(cr, indexes[..x], got[..x]), Emit(cr, indexes[x], got[x]), t, last);
    }
  }

  lemma Regroup(a: seq<Entry>, b: seq<Entry>, t: seq<Entry>, u: seq<Entry>)
    ensures a + (b + t) + u == a + (b + (t + u))
  {
  }

  lemma MiddleTaken(before: seq<Entry>, here: seq<Entry>, tail: seq<Entry>, alert: Labels)
    requires FirstMatch(Routes(before), alert) == |before|
    requires FirstMatch(Routes(here), alert) < |here|
    ensures
      var entries, j := before + (here + tail), FirstMatch(Routes(here), alert);
      FirstMatch(Routes(entries), alert) == |before| + j && entries[|before| + j] == here[j]
  {
    assert Routes(here + tail) == Routes(here) + Routes(tail);
    assert Routes(before + (here + tail)) == Routes(before) + Routes(here + tail);
    FirstMatchAppend(Routes(here), Routes(tail), alert);
    FirstMatchAppend(Routes(before), Routes(here + tail), alert);
  }

  /** Some index of this id gets its receiver of this kind. */
  ghost predicate SomeDue(cr: Cr, indexes: seq<Index>, got: seq<Reads>, id: string, slot: Slot)
    requires |indexes| == |got|
  {
    exists y :: 0 <= y < |indexes| && indexes[y].id == id && Due(cr, indexes[y], got[y], slot)
  }

  /** The first index of this id that does. */
  ghost predicate FirstDue(cr: Cr, indexes: seq<Index>, got: seq<Reads>, id: string, slot: Slot, y: nat)
    requires |indexes| == |got|
  {
    && y < |indexes| && indexes[y].id == id && Due(cr, indexes[y], got[y], slot)
    && forall z :: 0 <= z < y && indexes[z].id == id ==> !Due(cr, indexes[z], got[z], slot)
  }

  lemma {:induction false} FirstOfSome(cr: Cr, indexes: seq<Index>, got: seq<Reads>, id: string, slot: Slot, y: nat) returns (first: nat)
    requires |indexes| == |got| && y < |indexes| && indexes[y].id == id && Due(cr, indexes[y], got[y], slot)
    ensures FirstDue(cr, indexes, got, id, slot, first)
    decreases y
  {
    if z :| 0 <= z < y && indexes[z].id == id && Due(cr, indexes[z], got[z], slot) {
      first := FirstOfSome(cr, indexes, got, id, slot, z);
    } else {
      first := y;
    }
  }

  /** The alert wants this kind of receiver and one is there. */
  ghost predicate Served(cr: Cr, indexes: seq<Index>, got: seq<Reads>, id: string, alert: Labels, slot: Slot)
    requires |indexes| == |got|
  {
    Wants(alert, slot) && SomeDue(cr, indexes, got, id, slot)
  }

  /** And none of those before it. */
  ghost predicate Preferred(cr: Cr, indexes: seq<Index>, got: seq<Reads>, id: string, alert: Labels, slot: Slot)
    requires |indexes| == |got|
  {
    && Served(cr, indexes, got, id, alert, slot)
    && forall other :: Rank(other) < Rank(slot) ==> !Served(cr, indexes, got, id, alert, other)
  }

  /** Kinds come in sequence: a later one is due only if an earlier one is, or is off altogether. */
  lemma DueInSequence(cr: Cr, index: Index, got: Reads, slot: Slot, later: Slot)
    requires Rank(slot) <= Rank(later) && Due(cr, index, got, later) && !Off(cr, slot)
    ensures Due(cr, index, got, slot)
  {
  }

  /** An entry that accepts the alert is one of an index with its id, of a kind that it wants. */
  lemma AcceptedEntry(cr: Cr, indexes: seq<Index>, got: seq<Reads>, alert: Labels, k: nat) returns (x: nat)
    requires |indexes| == |got| && k < |EmitAll(cr, indexes, got)|
    requires Accepts(EmitAll(cr, indexes, got)[k].route.matchers, alert)
    ensures x < |indexes| && IdLabel in alert && indexes[x].id == alert[IdLabel]
    ensures
      var e := EmitAll(cr, indexes, got)[k];
      Fitting(cr, indexes[x], got[x], e) && Wants(alert, e.slot)
  {
    x := Owner(cr, indexes, got, k);
    EmitFits(cr, indexes[x], got[x]);
    assert Fitting(cr, indexes[x], got[x], EmitAll(cr, indexes, got)[k]);
  }

  /** Before the first index that is due, a route for the alert can only be one of a kind before this one in rank. */
  lemma OnlyOutranked(cr: Cr, indexes: seq<Index>, got: seq<Reads>, alert: Labels, slot: Slot, y: nat, k: nat)
    requires |indexes| == |got| && IdLabel in alert && FirstDue(cr, indexes, got, alert[IdLabel], slot, y)
    requires k < |EmitAll(cr, indexes[..y], got[..y])| && Accepts(EmitAll(cr, indexes[..y], got[..y])[k].route.matchers, alert)
    ensures
      var other := EmitAll(cr, indexes[..y], got[..y])[k].slot;
      Rank(other) < Rank(slot) && Served(cr, indexes, got, alert[IdLabel], alert, other)
  {
    var x := AcceptedEntry(cr, indexes[..y], got[..y], alert, k);
    var other := EmitAll(cr, indexes[..y], got[..y])[k].slot;
    assert indexes[..y][x] == indexes[x] && got[..y][x] == got[x];
    assert Served(cr, indexes, got, alert[IdLabel], alert, other);
    if Rank(slot) <= Rank(other) { DueInSequence(cr, indexes[x], got[x], slot, other); }
  }

  lemma NoneBefore(cr: Cr, indexes: seq<Index>, got: seq<Reads>, alert: Labels, slot: Slot, y: nat)
    requires |indexes| == |got| && IdLabel in alert && Preferred(cr, indexes, got, alert[IdLabel], alert, slot)
    requires FirstDue(cr, indexes, got, alert[IdLabel], slot, y)
    ensures FirstMatch(Routes(EmitAll(cr, indexes[..y], got[..y])), alert) == |EmitAll(cr, indexes[..y], got[..y])|
  {
    var before := EmitAll(cr, indexes[..y], got[..y]);
    var k := FirstMatch(Routes(before), alert);
    if k < |before| { OnlyOutranked(cr, indexes, got, alert, slot, y, k); }
  }

  /** Among that index's own routes the alert takes the one of this kind. */
  lemma AcceptedHere(cr: Cr, index: Index, got: Reads, alert: Labels, slot: Slot) returns (p: nat)
    requires Due(cr, index, got, slot) && Wants(alert, slot) && IdLabel in alert && alert[IdLabel] == index.id
    ensures
      var here := Emit(cr, index, got);
      p < |here| && here[p].slot == slot && Accepts(Routes(here)[p].matchers, alert)
  {
    var here := Emit(cr, index, got);
    EmitFits(cr, index, got);
    var e :| e in here && e.slot == slot;
    p :| 0 <= p < |here| && here[p] == e;
    assert Fitting(cr, index, got, e);
  }

  lemma TakenHere(cr: Cr, indexes: seq<Index>, got: seq<Reads>, alert: Labels, slot: Slot, y: nat)
    requires |indexes| == |got| && IdLabel in alert && Preferred(cr, indexes, got, alert[IdLabel], alert, slot)
    requires FirstDue(cr, indexes, got, alert[IdLabel], slot, y)
    ensures
      var here := Emit(cr, indexes[y], got[y]);
      var j := FirstMatch(Routes(here), alert);
      j < |here| && here[j].slot == slot
  {
    var here := Emit(cr, indexes[y], got[y]);
    var p := AcceptedHere(cr, indexes[y], got[y], alert, slot);
    EmitFits(cr, indexes[y], got[y]);
    var j := FirstMatch(Routes(here), alert);
    assert j <= p && Fitting(cr, indexes[y], got[y], here[j]);
    assert Served(cr, indexes, got, alert[IdLabel], alert, here[j].slot);
  }

  /** The route that the alert takes leads to this receiver, with this target and interval. */
  ghost predicate TakenWith(config: AlertConfig, alert: Labels, receiver: Receiver, repeatInterval: string) {
    var k := FirstMatch(config.routes, alert);
    && k < |config.routes| && k + 1 < |config.receivers| && config.receivers[k + 1] == receiver
    && config.routes[k].receiver == receiver.name && config.routes[k].repeatInterval == repeatInterval
  }

  lemma PreferredIsTaken(cr: Cr, indexes: seq<Index>, got: seq<Reads>, global: Global, alert: Labels, slot: Slot, y: nat)
    requires |indexes| == |got| && IdLabel in alert && Preferred(cr, indexes, got, alert[IdLabel], alert, slot)
    requires FirstDue(cr, indexes, got, alert[IdLabel], slot, y)
    ensures
      var config := Compiled(global, EmitAll(cr, indexes, got));
      TakenWith(config, alert, Receiver(ReceiverName(alert[IdLabel], slot), Asked(cr, indexes[y], got[y], slot)), Repeats(slot))
  {
    var before, here := EmitAll(cr, indexes[..y], got[..y]), Emit(cr, indexes[y], got[y]);
    var tail := EmitSplit(cr, indexes, got, y);
    NoneBefore(cr, indexes, got, alert, slot, y);
    TakenHere(cr, indexes, got, alert, slot, y);
    MiddleTaken(before, here, tail, alert);
    EmitFits(cr, indexes[y], got[y]);
    assert Fitting(cr, indexes[y], got[y], here[FirstMatch(Routes(here), alert)]);
  }

  lemma NoneTaken(cr: Cr, indexes: seq<Index>, got: seq<Reads>, global: Global, alert: Labels)
    requires |indexes| == |got| && IdLabel in alert
    requires forall slot :: !Served(cr, indexes, got, alert[IdLabel], alert, slot)
    ensures RoutedTo(Compiled(global, EmitAll(cr, indexes, got)), alert) == DefaultReceiver
  {
    var entries := EmitAll(cr, indexes, got);
    var k := FirstMatch(Routes(entries), alert);
    if k < |entries| {
      var x := AcceptedEntry(cr, indexes, got, alert, k);
      assert Served(cr, indexes, got, alert[IdLabel], alert, entries[k].slot);
    }
  }

  lemma BestServed(cr: Cr, indexes: seq<Index>, got: seq<Reads>, id: string, alert: Labels, slot: Slot) returns (best: Slot, first: nat)
    requires |indexes| == |got| && Served(cr, indexes, got, id, alert, slot)
    ensures Preferred(cr, indexes, got, id, alert, best) && FirstDue(cr, indexes, got, id, best, first)
  {
    best := if Served(cr, indexes, got, id, alert, PagerDuty) then PagerDuty
            else if Served(cr, indexes, got, id, alert, DeadMansSnitch) then DeadMansSnitch
            else Smtp;
    var y :| 0 <= y < |indexes| && indexes[y].id == id && Due(cr, indexes[y], got[y], best);
    first := FirstOfSome(cr, indexes, got, id, best, y);
  }

  /**
   Where an alert with an index's id goes: of the kinds of receiver that it wants and that some index of the id
   got, to the first in rank, and there to the target of the first such index; to the default where there is
   none. Whatever ids repeat and whatever secrets cannot be read.
   */
  lemma Routing(cr: Cr, indexes: seq<Index>, got: seq<Reads>, global: Global, id: string, alert: Labels, slot: Slot)
    requires |indexes| == |got|
    requires IdLabel in alert && alert[IdLabel] == id
    ensures
      var config := Compiled(global, EmitAll(cr, indexes, got));
      && (RoutedTo(config, alert) == ReceiverName(id, slot) <==> Preferred(cr, indexes, got, id, alert, slot))
      && (Preferred(cr, indexes, got, id, alert, slot) ==> forall y: nat :: FirstDue(cr, indexes, got, id, slot, y) ==>
            TakenWith(config, alert, Receiver(ReceiverName(id, slot), Asked(cr, indexes[y], got[y], slot)), Repeats(slot)))
      && (RoutedTo(config, alert) == DefaultReceiver <==> forall other :: !Served(cr, indexes, got, id, alert, other))
  {
    NameInjective(id, slot, id, slot);
    if other :| Served(cr, indexes, got, id, alert, other) {
      var best, first := BestServed(cr, indexes, got, id, alert, other);
      PreferredIsTaken(cr, indexes, got, global, alert, best, first);
      NameInjective(id, best, id, slot);
      SameRank(best, slot);
      if best == slot {
        forall y: nat | FirstDue(cr, indexes, got, id, slot, y)
          ensures TakenWith(Compiled(global, EmitAll(cr, indexes, got)), alert,
                            Receiver(ReceiverName(id, slot), Asked(cr, indexes[y], got[y], slot)), Repeats(slot))
        {
          PreferredIsTaken(cr, indexes, got, global, alert, slot, y);
        }
      }
    } else {
      NoneTaken(cr, indexes, got, global, alert);
    }
  }

  /** Of an alert that wants no higher ranked slot: routed to this slot's receiver exactly if someone asked for it, as the first of them asked. */
  lemma Reaches(cr: Cr, indexes: seq<Index>, got: seq<Reads>, global: Global, id: string, alert: Labels, slot: Slot)
    requires |indexes| == |got|
    requires IdLabel in alert && alert[IdLabel] == id
    requires Wants(alert, slot) && forall other :: Rank(other) < Rank(slot) ==> !Wants(alert, other)
    ensures
      var config := Compiled(global, EmitAll(cr, indexes, got));
      && (RoutedTo(config, alert) == ReceiverName(id, slot) <==> SomeDue(cr, indexes, got, id, slot))
      && forall y: nat :: FirstDue(cr, indexes, got, id, slot, y) ==>
           TakenWith(config, alert, Receiver(ReceiverName(id, slot), Asked(cr, indexes[y], got[y], slot)), Repeats(slot))
  {
    Routing(cr, indexes, got, global, id, alert, slot);
    assert Preferred(cr, indexes, got, id, alert, slot) <==> SomeDue(cr, indexes, got, id, slot);
    forall y: nat | FirstDue(cr, indexes, got, id, slot, y) ensures SomeDue(cr, indexes, got, id, slot) {
    }
  }

  lemma ReceiverNames(id: string)
    ensures ReceiverName(id, PagerDuty) == id + "-pagerduty"
    ensures ReceiverName(id, DeadMansSnitch) == id + "-deadmanssnitch"
    ensures ReceiverName(id, Smtp) == id + "-smtp"
  {
    assert ReceiverName(id, PagerDuty) == id + "-pagerduty";
    assert ReceiverName(id, DeadMansSnitch) == id + "-deadmanssnitch";
    assert ReceiverName(id, Smtp) == id + "-smtp";
  }

  lemma SameRank(a: Slot, b: Slot)
    ensures Rank(a) == Rank(b) <==> a == b
  {
  }

  /** A critical alert pages exactly if some index of its id got its PagerDuty receiver, with the key of the first such index. */
  lemma CriticalReachesPager(cr: Cr, indexes: seq<Index>, got: seq<Reads>, global: Global, id: string, alert: Labels)
    requires |indexes| == |got|
    requires IdLabel in alert && alert[IdLabel] == id
    requires "severity" in alert && alert["severity"] == "critical"
    ensures
      var config := Compiled(global, EmitAll(cr, indexes, got));
      && (RoutedTo(config, alert) == id + "-pagerduty" <==> SomeDue(cr, indexes, got, id, PagerDuty))
      && forall y: nat :: FirstDue(cr, indexes, got, id, PagerDuty, y) ==>
           TakenWith(config, alert, Receiver(id + "-pagerduty", ServiceKey(got[y].pagerKey.value)), "")
  {
    ReceiverNames(id);
    Reaches(cr, indexes, got, global, id, alert, PagerDuty);
  }

  /** A dead man's switch that is not critical feeds the snitch exactly if some index of its id has one, every five minutes. */
  lemma DeadMansSwitchReachesSnitch(cr: Cr, indexes: seq<Index>, got: seq<Reads>, global: Global, id: string, alert: Labels)
    requires |indexes| == |got|
    requires IdLabel in alert && alert[IdLabel] == id
    requires "alertname" in alert && alert["alertname"] == "DeadMansSwitch"
    requires !("severity" in alert && alert["severity"] == "critical")
    ensures
      var config := Compiled(global, EmitAll(cr, indexes, got));
      && (RoutedTo(config, alert) == id + "-deadmanssnitch" <==> SomeDue(cr, indexes, got, id, DeadMansSnitch))
      && forall y: nat :: FirstDue(cr, indexes, got, id, DeadMansSnitch, y) ==>
           TakenWith(config, alert, Receiver(id + "-deadmanssnitch", Webhook(got[y].snitchUrl.value)), "5m")
  {
    ReceiverNames(id);
    Reaches(cr, indexes, got, global, id, alert, DeadMansSnitch);
  }

  /** A warning that is no dead man's switch is mailed exactly if some index of its id has addresses, to all of these. */
  lemma WarningReachesMail(cr: Cr, indexes: seq<Index>, got: seq<Reads>, global: Global, id: string, alert: Labels)
    requires |indexes| == |got|
    requires IdLabel in alert && alert[IdLabel] == id
    requires "severity" in alert && alert["severity"] == "warning"
    requires !("alertname" in alert && alert["alertname"] == "DeadMansSwitch")
    ensures
      var config := Compiled(global, EmitAll(cr, indexes, got));
      && (RoutedTo(config, alert) == id + "-smtp" <==> SomeDue(cr, indexes, got, id, Smtp))
      && forall y: nat :: FirstDue(cr, indexes, got, id, Smtp, y) ==>
           exists text :: TakenWith(config, alert, Receiver(id + "-smtp", Email(text)), "") && Addresses(indexes[y].config.value.alertmanager.value.smtpTo, text)
  {
    ReceiverNames(id);
    Reaches(cr, indexes, got, global, id, alert, Smtp);
    forall y: nat | FirstDue(cr, indexes, got, id, Smtp, y)
      ensures exists text ::
        TakenWith(Compiled(global, EmitAll(cr, indexes, got)), alert, Receiver(id + "-smtp", Email(text)), "")
        && Addresses(indexes[y].config.value.alertmanager.value.smtpTo, text)
    {
      var to := indexes[y].config.value.alertmanager.value.smtpTo;
      JoinedAddresses(to);
      assert Asked(cr, indexes[y], got[y], Smtp) == Email(Collectors.Join(to, ','));
    }
  }

  /** These addresses, none of which has a comma, can be read off the text. */
  ghost predicate Addresses(to: seq<string>, text: string) {
    (forall i :: 0 <= i < |to| ==> ',' !in to[i]) ==> Collectors.Split(text, ',') == to
  }

  lemma JoinedAddresses(to: seq<string>)
    requires to != []
    ensures Addresses(to, Collectors.Join(to, ','))
  {
    if forall i :: 0 <= i < |to| ==> ',' !in to[i] { Collectors.SplitJoin(to, ','); }
  }

  /** An alert that is none of the three, or carries no id, goes to the default. */
  lemma OthersReachDefault(cr: Cr, indexes: seq<Index>, got: seq<Reads>, global: Global, alert: Labels)
    requires |indexes| == |got|
    requires
      || "observability" !in alert
      || (&& !("severity" in alert && alert["severity"] in {"critical", "warning"})
          && !("alertname" in alert && alert["alertname"] == "DeadMansSwitch"))
    ensures RoutedTo(Compiled(global, EmitAll(cr, indexes, got)), alert) == "default-receiver"
  {
    var entries := EmitAll(cr, indexes, got);
    var k := FirstMatch(Routes(entries), alert);
    if k < |entries| { var _ := AcceptedEntry(cr, indexes, got, alert, k); }
  }

  /** With distinct ids it is the index's own receiver and key. */
  lemma CriticalReachesOwnPager(cr: Cr, indexes: seq<Index>, got: seq<Reads>, global: Global, x: nat, alert: Labels)
    requires |indexes| == |got| && DistinctIds(indexes) && x < |indexes|
    requires IdLabel in alert && alert[IdLabel] == indexes[x].id
    requires "severity" in alert && alert["severity"] == "critical"
    ensures
      var config := Compiled(global, EmitAll(cr, indexes, got));
      && (RoutedTo(config, alert) == indexes[x].id + "-pagerduty" <==> Due(cr, indexes[x], got[x], PagerDuty))
      && (Due(cr, indexes[x], got[x], PagerDuty) ==> Notifies(config, alert, ServiceKey(got[x].pagerKey.value)))
  {
    CriticalReachesPager(cr, indexes, got, global, indexes[x].id, alert);
    if Due(cr, indexes[x], got[x], PagerDuty) {
      assert FirstDue(cr, indexes, got, indexes[x].id, PagerDuty, x);
    }
  }

  // ---------- End to end ----------

  /** An alert that a rule raises has the labels of the rule, and others. */
  ghost predicate RaisedBy(rule: Labels, alert: Labels) {
    forall l :: l in rule ==> l in alert && alert[l] == rule[l]
  }

  /**
   From a rule file to a notification: an alert raised by a rule of a file that an index X lists, fetched from X's
   repository and written by createRequestedRules, keeps the labels that the rule has in the file and gets X's id. It
   goes to a receiver named after X or to the default, to the one that a critical alert, a dead man's switch or a
   warning is for; and it sets off nobody but indexes with X's id: X alone where ids are distinct.
   */
  lemma EndToEnd(cr: Cr, indexes: seq<Index>, got: seq<Reads>, global: Global, x: nat, path: string,
                 fetch: ResourceSync.Fetch, g: nat, r: nat, alert: Labels, target: Target, slot: Slot)
    requires |indexes| == |got| && x < |indexes|
    requires ResourceSync.RuleObject(fetch)(Collectors.Info(indexes[x], path)).Some?
    requires
      var written := ResourceSync.RuleObject(fetch)(Collectors.Info(indexes[x], path)).value;
      g < |written.groups| && r < |written.groups[g]| && RaisedBy(written.groups[g][r], alert)
    ensures
      var file := fetch(indexes[x].baseUrl + "/" + path, indexes[x].tag, indexes[x].accessToken);
      && file.Some? && g < |file.value.groups| && r < |file.value.groups[g]|
      && RaisedBy(file.value.groups[g][r] - {"observability"}, alert)
      && "observability" in alert && alert["observability"] == indexes[x].id
    ensures
      var to := RoutedTo(Compiled(global, EmitAll(cr, indexes, got)), alert);
      && (to == ReceiverName(indexes[x].id, slot) <==> Preferred(cr, indexes, got, indexes[x].id, alert, slot))
      && (to == DefaultReceiver <==> forall other :: !Served(cr, indexes, got, indexes[x].id, alert, other))
    ensures Notifies(Compiled(global, EmitAll(cr, indexes, got)), alert, target) ==>
      target == Nobody || TargetOf(cr, indexes, got, indexes[x].id, target)
    ensures Notifies(Compiled(global, EmitAll(cr, indexes, got)), alert, target) && DistinctIds(indexes) ==>
      target == Nobody || exists e :: e in Emit(cr, indexes[x], got[x]) && e.receiver.target == target
  {
    var info := Collectors.Info(indexes[x], path);
    var written := ResourceSync.RuleObject(fetch)(info).value;
    ResourceSync.RuleAsFetched(fetch, info);
    var file := fetch(info.url, info.tag, info.accessToken).value;
    assert ResourceSync.Relabelled(file.groups[g][r], info.id, written.groups[g][r]);
    Routing(cr, indexes, got, global, indexes[x].id, alert, slot);
    if Notifies(Compiled(global, EmitAll(cr, indexes, got)), alert, target) {
      NoForeignTarget(cr, indexes, got, global, indexes[x].id, alert, target);
    }
  }

  /** So a rule that is critical in its file pages, exactly if an index with its id got its PagerDuty receiver. */
  lemma CriticalRulePages(cr: Cr, indexes: seq<Index>, got: seq<Reads>, global: Global, x: nat, path: string,
                          fetch: ResourceSync.Fetch, file: Obj, g: nat, r: nat, alert: Labels)
    requires |indexes| == |got| && x < |indexes|
    requires fetch(indexes[x].baseUrl + "/" + path, indexes[x].tag, indexes[x].accessToken) == Some(file)
    requires g < |file.groups| && r < |file.groups[g]|
    requires "severity" in file.groups[g][r] && file.groups[g][r]["severity"] == "critical"
    requires
      var written := ResourceSync.RuleObject(fetch)(Collectors.Info(indexes[x], path));
      written.Some? && g < |written.value.groups| && r < |written.value.groups[g]| ==> RaisedBy(written.value.groups[g][r], alert)
    ensures
      RoutedTo(Compiled(global, EmitAll(cr, indexes, got)), alert) == indexes[x].id + "-pagerduty"
      <==> SomeDue(cr, indexes, got, indexes[x].id, PagerDuty)
  {
    var info := Collectors.Info(indexes[x], path);
    ResourceSync.RuleAsFetched(fetch, info);
    var written := ResourceSync.RuleObject(fetch)(info).value;
    assert ResourceSync.Relabelled(file.groups[g][r], info.id, written.groups[g][r]);
    CriticalReachesPager(cr, indexes, got, global, indexes[x].id, alert);
  }
}
