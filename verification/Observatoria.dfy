/** Resolving the observatoria of an index from secrets, and keeping their tokens fresh. */
module Observatoria {
  import opened Kube
  import opened Observability
  import opened SyncEngine
  import opened TokenExpiry
  import opened Decimal

  function Or(own: string, other: string): string {
    if own != "" then own else other
  }

  // ---------- assignFromSecret ----------

  datatype Assigned = Assigned(o: Observatorium) | AssignError | StackOverflow

  /** Values given in the index win over the secret's. */
  function Filled(o: Observatorium, secret: Obj): Observatorium {
    o.(authType := Or(o.authType, Text(secret, "authType")),
       gateway := Or(o.gateway, Text(secret, "gateway")),
       tenant := Or(o.tenant, Text(secret, "tenant")))
  }

  function DexFrom(secret: Obj): DexConfig {
    DexConfig(Text(secret, "dexUrl"), Text(secret, "dexUsername"), Text(secret, "dexPassword"), Text(secret, "dexSecret"), "", "")
  }

  function SsoFrom(secret: Obj): RedhatSso {
    RedhatSso(Text(secret, "redHatSsoAuthServerUrl"), Text(secret, "redHatSsoRealm"),
              Text(secret, "metricsClientId"), Text(secret, "metricsSecret"),
              Text(secret, "logsClientId"), Text(secret, "logsSecret"))
  }

  /** `depth` is what is left of the call stack. */
  function Assign(secret: Option<Obj>, o: Observatorium, depth: nat): Assigned
    decreases depth
  {
    if depth == 0 then StackOverflow
    else if secret.None? then AssignError
    else
      var f := Filled(o, secret.value);
      if f.authType == AuthTypeDex then
        if f.dex.Some? then Assign(secret, f, depth - 1)
        else Assigned(f.(dex := Some(DexFrom(secret.value))))
      else if f.authType == AuthTypeRedhat then Assigned(f.(sso := Some(SsoFrom(secret.value))))
      else AssignError
  }

  /** A secret-backed entry that resolves to Dex although the index already configures Dex. */
  predicate Loops(secret: Option<Obj>, o: Observatorium) {
    secret.Some? && Or(o.authType, Text(secret.value, "authType")) == AuthTypeDex && o.dex.Some?
  }

  /** The recursion with unchanged arguments: no stack is deep enough exactly for the entries that loop. */
  lemma {:induction false} OverflowsIff(secret: Option<Obj>, o: Observatorium, depth: nat)
    ensures Loops(secret, o) ==> Assign(secret, o, depth) == StackOverflow
    ensures !Loops(secret, o) && depth > 0 ==> Assign(secret, o, depth) == Assign(secret, o, 1) && !Assign(secret, o, depth).StackOverflow?
    decreases depth
  {
    if depth > 0 && Loops(secret, o) {
      OverflowsIff(secret, Filled(o, secret.value), depth - 1);
    }
  }

  function Lookup(s: Store, k: Key): Option<Obj> {
    if k in s then Some(s[k]) else None
  }

  method AssignFromSecret(c: Cluster, cr: Cr, o: Observatorium, depth: nat) returns (r: Assigned)
    modifies c
    ensures c.store == old(c.store) && old(c.log) <= c.log && Still(c.log, |old(c.log)|, c.store)
    ensures r.AssignError? || r == Assign(Lookup(c.store, Key(Secret, cr.ns, o.secretName)), o, depth)
    ensures c.Reliable() ==> r == Assign(Lookup(c.store, Key(Secret, cr.ns, o.secretName)), o, depth)
    decreases depth
  {
    if depth == 0 { return StackOverflow; }
    var reply := c.Get(Key(Secret, cr.ns, o.secretName));
    if !reply.Found? { return AssignError; }
    var secret := reply.obj;
    var f := o;
    if f.authType == "" { f := f.(authType := Text(secret, "authType")); }
    if f.gateway == "" { f := f.(gateway := Text(secret, "gateway")); }
    if f.tenant == "" { f := f.(tenant := Text(secret, "tenant")); }
    assert f == Filled(o, secret);
    if f.authType == AuthTypeDex {
      if f.dex.Some? {
        r := AssignFromSecret(c, cr, f, depth - 1);
      } else {
        r := Assigned(f.(dex := Some(DexFrom(secret))));
      }
    } else if f.authType == AuthTypeRedhat {
      r := Assigned(f.(sso := Some(SsoFrom(secret))));
    } else {
      r := AssignError;
    }
  }

  // ---------- ReconcileObservatoria ----------

  /** Legacy Dex credentials from a separate secret, old key names first. */
  function WithCredentials(o: Observatorium, secret: Obj): Observatorium
    requires o.dex.Some?
  {
    o.(dex := Some(o.dex.value.(
      username := if "username" in secret.data then secret.data["username"] else Text(secret, "dexUsername"),
      password := if "password" in secret.data then secret.data["password"] else Text(secret, "dexPassword"),
      secret := if "secret" in secret.data then secret.data["secret"] else Text(secret, "dexSecret"))))
  }

  predicate NeedsCredentials(o: Observatorium) {
    o.authType == AuthTypeDex && o.dex.Some? && o.dex.value.credentialName != ""
  }

  function CredentialKey(cr: Cr, o: Observatorium): Key
    requires o.dex.Some?
  {
    Key(Secret, if o.dex.value.credentialNs != "" then o.dex.value.credentialNs else cr.ns, o.dex.value.credentialName)
  }

  /** What one entry of the list becomes. */
  function Resolved(s: Store, cr: Cr, o: Observatorium, depth: nat): Assigned {
    var a := if o.secretName != "" then Assign(Lookup(s, Key(Secret, cr.ns, o.secretName)), o, depth) else Assigned(o);
    if a.Assigned? && NeedsCredentials(a.o) then
      var secret := Lookup(s, CredentialKey(cr, a.o));
      if secret.None? then AssignError else Assigned(WithCredentials(a.o, secret.value))
    else a
  }

  ghost predicate OwnOr(own: string, secret: Obj, field: string, v: string) {
    v == if own != "" then own else if field in secret.data then secret.data[field] else ""
  }

  /** A secret-backed entry, field by field: what it leaves open comes from the secret, and so do the credentials of its type. */
  lemma ResolvedFromSecret(s: Store, cr: Cr, o: Observatorium, depth: nat)
    requires o.secretName != "" && depth > 0
    ensures
      var k, r := Key(Secret, cr.ns, o.secretName), Resolved(s, cr, o, depth);
      && (k !in s ==> r.AssignError?)
      && (k in s ==>
        var t := if o.authType != "" then o.authType else Text(s[k], "authType");
        && (t != "dex" && t != "redhat" ==> r.AssignError?)
        && (t == "redhat" || (t == "dex" && o.dex.None?) ==>
             && r.Assigned? && r.o.authType == t && r.o.id == o.id && r.o.secretName == o.secretName
             && OwnOr(o.gateway, s[k], "gateway", r.o.gateway) && OwnOr(o.tenant, s[k], "tenant", r.o.tenant))
        && (t == "redhat" ==> r.o.dex == o.dex && r.o.sso.Some? && SsoOf(s[k], r.o.sso.value))
        && (t == "dex" && o.dex.None? ==> r.o.sso == o.sso && r.o.dex.Some? && DexOf(s[k], r.o.dex.value)))
  {
    var k := Key(Secret, cr.ns, o.secretName);
    OverflowsIff(Lookup(s, k), o, depth);
  }

  ghost predicate SsoOf(secret: Obj, sso: RedhatSso) {
    && sso.url == Text(secret, "redHatSsoAuthServerUrl") && sso.realm == Text(secret, "redHatSsoRealm")
    && sso.metricsClient == Text(secret, "metricsClientId") && sso.metricsSecret == Text(secret, "metricsSecret")
    && sso.logsClient == Text(secret, "logsClientId") && sso.logsSecret == Text(secret, "logsSecret")
  }

  ghost predicate DexOf(secret: Obj, dex: DexConfig) {
    && dex.url == Text(secret, "dexUrl") && dex.username == Text(secret, "dexUsername")
    && dex.password == Text(secret, "dexPassword") && dex.secret == Text(secret, "dexSecret")
    && dex.credentialName == "" && dex.credentialNs == ""
  }

  /** An entry without a secret is taken as it is, but for the login of a Dex configuration that names a credential secret. */
  lemma ResolvedFromCredentials(s: Store, cr: Cr, o: Observatorium, depth: nat)
    requires o.secretName == ""
    ensures !(o.authType == "dex" && o.dex.Some? && o.dex.value.credentialName != "") ==> Resolved(s, cr, o, depth) == Assigned(o)
    ensures o.authType == "dex" && o.dex.Some? && o.dex.value.credentialName != "" ==>
      var ns := if o.dex.value.credentialNs != "" then o.dex.value.credentialNs else cr.ns;
      var k, r := Key(Secret, ns, o.dex.value.credentialName), Resolved(s, cr, o, depth);
      if k !in s then r.AssignError?
      else r.Assigned? && SameButLogin(o, r.o) && StatedLogin(r.o) == SecretLogin(s[k])
  {
  }

  /** What resolving never changes: identity, and whatever the index states outright. */
  predicate Respects(o: Observatorium, r: Observatorium) {
    && r.id == o.id && r.secretName == o.secretName
    && (o.authType != "" ==> r.authType == o.authType)
    && (o.gateway != "" ==> r.gateway == o.gateway)
    && (o.tenant != "" ==> r.tenant == o.tenant)
  }

  lemma {:induction false} AssignRespects(secret: Option<Obj>, o: Observatorium, depth: nat)
    ensures Assign(secret, o, depth).Assigned? ==> Respects(o, Assign(secret, o, depth).o)
    decreases depth
  {
    if depth > 0 && secret.Some? {
      AssignRespects(secret, Filled(o, secret.value), depth - 1);
    }
  }

  lemma ResolvedRespects(s: Store, cr: Cr, o: Observatorium, depth: nat)
    ensures Resolved(s, cr, o, depth).Assigned? ==> Respects(o, Resolved(s, cr, o, depth).o)
  {
    AssignRespects(Lookup(s, Key(Secret, cr.ns, o.secretName)), o, depth);
  }

  /** Resolving runs out of stack exactly for secret-backed entries that loop, however much of it there is. */
  lemma ResolvedOverflowsIff(s: Store, cr: Cr, o: Observatorium, depth: nat)
    ensures Resolved(s, cr, o, depth).StackOverflow? <==>
      o.secretName != "" && (depth == 0 || Loops(Lookup(s, Key(Secret, cr.ns, o.secretName)), o))
  {
    OverflowsIff(Lookup(s, Key(Secret, cr.ns, o.secretName)), o, depth);
  }

  method Resolve(c: Cluster, cr: Cr, o: Observatorium, depth: nat) returns (r: Assigned)
    modifies c
    ensures c.store == old(c.store) && old(c.log) <= c.log && Still(c.log, |old(c.log)|, c.store)
    ensures r.AssignError? || r == Resolved(c.store, cr, o, depth)
    ensures c.Reliable() ==> r == Resolved(c.store, cr, o, depth)
  {
    r := Assigned(o);
    if o.secretName != "" {
      r := AssignFromSecret(c, cr, o, depth);
      if !r.Assigned? { return; }
    }
    if NeedsCredentials(r.o) {
      var reply := c.Get(CredentialKey(cr, r.o));
      if !reply.Found? { return AssignError; }
      r := Assigned(WithCredentials(r.o, reply.obj));
    }
  }

  /** The Dex endpoint: a token and its expires_in, or an error. */
  type Dex = Observatorium -> Option<(string, int)>

  /** refreshToken: only Dex fetches anything, and without a Dex configuration it keeps the old token. */
  function Refreshed(dex: Dex, o: Observatorium, oldToken: string, now: int): Option<(string, int)> {
    if o.authType != AuthTypeDex then Some(("", 0))
    else if o.dex.None? then Some((oldToken, 0))
    else match dex(o)
      case None => None
      case Some(answer) => Some((answer.0, Expires(now, answer.1)))
  }

  function TokenKeys(cr: Cr, os: seq<Observatorium>): set<Key> {
    set i | 0 <= i < |os| :: TokenKey(cr, os[i].id)
  }

  ghost predicate SameOutside(a: Store, b: Store, keys: set<Key>) {
    forall k :: k !in keys ==> Lookup(a, k) == Lookup(b, k)
  }

  ghost predicate AllSameOutside(log: seq<Step>, n: nat, s: Store, keys: set<Key>) {
    forall i :: n <= i < |log| ==> SameOutside(s, log[i].post.store, keys)
  }

  lemma OutsideOn(before: seq<Step>, log: seq<Step>, n: nat, a: Store, b: Store, d: Store, part: set<Key>, all: set<Key>)
    requires before <= log && n <= |before| && part <= all
    requires AllSameOutside(before, n, a, all) && SameOutside(a, b, all)
    requires AllSameOutside(log, |before|, b, part) && SameOutside(b, d, part)
    ensures AllSameOutside(log, n, a, all) && SameOutside(a, d, all)
  {
    forall i | n <= i < |log| ensures SameOutside(a, log[i].post.store, all) {
      if i < |before| { assert log[i] == before[i]; }
    }
  }

  /** Since the log had `n` entries, only these token secrets were touched, and what was written is labelled. */
  ghost predicate OnlyTokens(cr: Cr, log: seq<Step>, n: nat, a: Store, b: Store, keys: set<Key>) {
    AllSameOutside(log, n, a, keys) && SameOutside(a, b, keys) && Adds(a, b, TokenMark(cr.ns))
  }

  lemma OnlyTokensOn(cr: Cr, before: seq<Step>, log: seq<Step>, n: nat, a: Store, b: Store, d: Store, part: set<Key>, all: set<Key>)
    requires before <= log && n <= |before| && part <= all
    requires OnlyTokens(cr, before, n, a, b, all) && OnlyTokens(cr, log, |before|, b, d, part)
    ensures OnlyTokens(cr, log, n, a, d, all)
  {
    OutsideOn(before, log, n, a, b, d, part, all);
    AddsOn(a, b, d, TokenMark(cr.ns));
  }

  ghost predicate AllRespected(os: seq<Observatorium>, list: seq<Observatorium>) {
    |list| == |os| && forall i :: 0 <= i < |os| ==> Respects(os[i], list[i])
  }

  /** The secrets resolving an entry may read. */
  function Sources(cr: Cr, o: Observatorium): set<Key> {
    (if o.secretName != "" then {Key(Secret, cr.ns, o.secretName)} else {}) + if o.dex.Some? then {CredentialKey(cr, o)} else {}
  }

  /** No configuration secret doubles as a token secret. */
  ghost predicate Apart(cr: Cr, os: seq<Observatorium>) {
    forall i :: 0 <= i < |os| ==> TokenKeys(cr, os) !! Sources(cr, os[i])
  }

  lemma ResolvedFromSources(a: Store, b: Store, keys: set<Key>, cr: Cr, o: Observatorium, depth: nat)
    requires SameOutside(a, b, keys) && keys !! Sources(cr, o)
    ensures Resolved(a, cr, o, depth) == Resolved(b, cr, o, depth)
  {
    var k := Key(Secret, cr.ns, o.secretName);
    OverflowsIff(Lookup(a, k), o, depth);
    assert o.secretName != "" ==> Lookup(a, k) == Lookup(b, k);
  }

  predicate TokenDue(s: Store, cr: Cr, id: string, now: int) {
    TokenKey(cr, id) in s && RefreshView(s[TokenKey(cr, id)], now) == Due
  }

  /** The secret holds what refreshing the old token yields, or is as it was where that fails. */
  ghost predicate RenewedFrom(dex: Dex, o: Observatorium, oldToken: string, now: int, a: Store, b: Store, k: Key) {
    match Refreshed(dex, o, oldToken, now)
    case None => Lookup(b, k) == Lookup(a, k)
    case Some(answer) => k in b && Saved(b[k], answer.0, answer.1)
  }

  predicate Holds(o: Obj, token: string) { "token" in o.data && o.data["token"] == token }

  /** To neither reader is it due until an hour and a second before `n` seconds from `now` are over, to both in the last hour. */
  ghost predicate LastsFor(o: Obj, now: int, n: int) {
    forall later ::
      && (later <= now + (n - 3601) * Second ==> ListerView(o, later) == NotDue && RefreshView(o, later) == NotDue)
      && (later > now + (n - 3600) * Second ==> ListerView(o, later) == Due && RefreshView(o, later) == Due)
  }

  /** What becomes of the token secret of `o` in its turn at `now`, by what those see who look later. */
  ghost predicate TokenKept(dex: Dex, o: Observatorium, now: int, before: Option<Obj>, after: Option<Obj>) {
    if o.authType == "redhat" || (before.Some? && RefreshView(before.value, now) != Due) then after == before
    else if o.authType != "dex" then
      after.Some? && Holds(after.value, "") && forall later :: ListerView(after.value, later) == NotDue
    else if o.dex.None? then
      after.Some? && Holds(after.value, if before.Some? then Text(before.value, "token") else "") && forall later :: ListerView(after.value, later) == NotDue
    else match dex(o)
      case None => after == before
      case Some(answer) =>
        && after.Some? && Holds(after.value, answer.0)
        && (answer.0 != "" && 3600 < answer.1 <= MaxExpiresIn && 0 <= now && UnixSeconds(now) <= MaxInt64 - MaxExpiresIn ==>
             LastsFor(after.value, now, answer.1))
  }

  lemma SavedIsKept(dex: Dex, o: Observatorium, now: int, before: Option<Obj>, after: Obj)
    requires o.authType != AuthTypeRedhat && (before.Some? ==> RefreshView(before.value, now) == Due)
    requires
      var token := if before.Some? then Stored(before.value).token else "";
      Refreshed(dex, o, token, now).Some? && Saved(after, Refreshed(dex, o, token, now).value.0, Refreshed(dex, o, token, now).value.1)
    ensures TokenKept(dex, o, now, before, Some(after))
  {
    RoundTrip(0);
    if o.authType == AuthTypeDex && o.dex.Some? {
      var token, n := dex(o).value.0, dex(o).value.1;
      if token != "" && 3600 < n <= MaxExpiresIn && 0 <= now && UnixSeconds(now) <= MaxInt64 - MaxExpiresIn {
        forall later
          ensures later <= now + (n - 3601) * Second ==> ListerView(after, later) == NotDue && RefreshView(after, later) == NotDue
          ensures later > now + (n - 3600) * Second ==> ListerView(after, later) == Due && RefreshView(after, later) == Due
        {
          SavedTokenWindow(after, token, now, n, later);
        }
      }
    }
  }

  /** The token of one resolved observatorium: find it, and refresh it when it is missing or due. */
  method KeepTokenFresh(c: Cluster, cr: Cr, o: Observatorium, dex: Dex, now: int) returns (ok: bool)
    modifies c
    ensures old(c.log) <= c.log
    ensures AllSameOutside(c.log, |old(c.log)|, old(c.store), {TokenKey(cr, o.id)})
    ensures SameOutside(old(c.store), c.store, {TokenKey(cr, o.id)})
    ensures Adds(old(c.store), c.store, TokenMark(cr.ns))
    ensures o.authType == AuthTypeRedhat ==> ok && c.store == old(c.store)
    ensures c.Reliable() ==> (!ok <==> o.authType != AuthTypeRedhat && TokenBroken(old(c.store), cr, o.id))
    ensures c.Reliable() && o.authType != AuthTypeRedhat && TokenDue(old(c.store), cr, o.id, now) ==>
      RenewedFrom(dex, o, Stored(old(c.store)[TokenKey(cr, o.id)]).token, now, old(c.store), c.store, TokenKey(cr, o.id))
    ensures TokenKey(cr, o.id) in old(c.store) && RefreshView(old(c.store)[TokenKey(cr, o.id)], now) == NotDue ==> c.store == old(c.store)
    ensures c.Reliable() && o.authType != AuthTypeRedhat && TokenKey(cr, o.id) !in old(c.store) ==>
      RenewedFrom(dex, o, "", now, old(c.store), c.store, TokenKey(cr, o.id))
    ensures c.Reliable() ==> TokenKept(dex, o, now, Lookup(old(c.store), TokenKey(cr, o.id)), Lookup(c.store, TokenKey(cr, o.id)))
  {
    if o.authType == AuthTypeRedhat { return true; }
    var found := FindToken(c, cr, o.id);
    if found.FindError? { return false; }
    if found.token == "" || AuthTokenExpires(now, found.lifetime) {
      var renewed := Refreshed(dex, o, found.token, now);
      if renewed.Some? {
        var ok := SaveToken(c, cr, o.id, renewed.value.0, renewed.value.1);
        if ok { SavedIsKept(dex, o, now, Lookup(old(c.store), TokenKey(cr, o.id)), c.store[TokenKey(cr, o.id)]); }
      }
    }
    return true;
  }

  /** findToken would report an error for the stored token. */
  predicate TokenBroken(s: Store, cr: Cr, id: string) {
    var k := TokenKey(cr, id);
    k in s && (Stored(s[k]).NoToken? || Stored(s[k]).lifetime.None?)
  }

  predicate Overflows(s: Store, cr: Cr, o: Observatorium, depth: nat) {
    Resolved(s, cr, o, depth).StackOverflow?
  }

  ghost predicate DistinctObservatoria(os: seq<Observatorium>) {
    forall i, j :: 0 <= i < j < |os| ==> os[i].id != os[j].id
  }

  lemma TokenKeyInjective(cr: Cr, a: string, b: string)
    ensures TokenKey(cr, a) == TokenKey(cr, b) <==> a == b
  {
    assert TokenKey(cr, a).name[|"obs-token-"|..] == a && TokenKey(cr, b).name[|"obs-token-"|..] == b;
  }

  /**
   No entry that resolves to Dex with a preset configuration, and no crash: with configuration secrets apart
   from token secrets, some stack to start with, and no entry that loops, the list is always gone through.
   */
  lemma NoLoopNoCrash(s: Store, cr: Cr, os: seq<Observatorium>, depth: nat)
    requires depth > 0
    requires forall i :: 0 <= i < |os| && os[i].secretName != "" ==> !Loops(Lookup(s, Key(Secret, cr.ns, os[i].secretName)), os[i])
    ensures forall i :: 0 <= i < |os| ==> !Overflows(s, cr, os[i], depth)
  {
    forall i | 0 <= i < |os| ensures !Overflows(s, cr, os[i], depth) {
      ResolvedOverflowsIff(s, cr, os[i], depth);
    }
  }

  // ---------- What a turn of the loop comes to ----------

  /** An entry is passed over, ends the loop with an error, or never returns. */
  function TurnEnds(s: Store, cr: Cr, o: Observatorium, depth: nat): Outcome {
    match Resolved(s, cr, o, depth)
    case StackOverflow => Crashed
    case AssignError => Errored
    case Assigned(r) => if r.authType != AuthTypeRedhat && TokenBroken(s, cr, o.id) then Errored else Completed
  }

  /** The entry's Dex configuration is behind a pointer, and the loop fills in the credentials there. */
  predicate Shared(o: Observatorium) {
    o.secretName == "" && NeedsCredentials(o)
  }

  /** What the caller's own entry is after its turn. */
  function Touched(s: Store, cr: Cr, o: Observatorium, depth: nat): Observatorium {
    var a := Resolved(s, cr, o, depth);
    if Shared(o) && a.Assigned? then a.o else o
  }

  /** The caller's list when the first `p` entries have been resolved. */
  function Left(s: Store, cr: Cr, os: seq<Observatorium>, depth: nat, p: nat): (r: seq<Observatorium>)
    ensures |r| == |os| && forall i :: 0 <= i < |r| ==> r[i] == if i < p then Touched(s, cr, os[i], depth) else os[i]
  {
    seq(|os|, i requires 0 <= i < |os| => if i < p then Touched(s, cr, os[i], depth) else os[i])
  }

  /** The credentials that an entry states itself, and those of a secret. */
  function StatedLogin(o: Observatorium): (string, string, string)
    requires o.dex.Some?
  {
    (o.dex.value.username, o.dex.value.password, o.dex.value.secret)
  }

  function SecretLogin(secret: Obj): (string, string, string) {
    (if "username" in secret.data then secret.data["username"] else Text(secret, "dexUsername"),
     if "password" in secret.data then secret.data["password"] else Text(secret, "dexPassword"),
     if "secret" in secret.data then secret.data["secret"] else Text(secret, "dexSecret"))
  }

  /**
   A failing list comes back as it was if and only if every entry it got past that names a credential secret
   already states what that secret holds.
   */
  lemma LeftAloneIff(s: Store, cr: Cr, os: seq<Observatorium>, depth: nat, p: nat)
    ensures Left(s, cr, os, depth, p) == os <==>
      forall i :: 0 <= i < |os| && i < p && Shared(os[i]) && CredentialKey(cr, os[i]) in s ==>
        SecretLogin(s[CredentialKey(cr, os[i])]) == StatedLogin(os[i])
  {
    var left := Left(s, cr, os, depth, p);
    forall i | 0 <= i < |os|
      ensures left[i] == os[i] <==>
        (i < p && Shared(os[i]) && CredentialKey(cr, os[i]) in s ==> SecretLogin(s[CredentialKey(cr, os[i])]) == StatedLogin(os[i]))
    {
      if i < p && Shared(os[i]) && CredentialKey(cr, os[i]) in s {
        assert left[i] == WithCredentials(os[i], s[CredentialKey(cr, os[i])]);
      }
    }
    if left != os { var i :| 0 <= i < |os| && left[i] != os[i]; }
  }

  /** The first entry from `i` on that is not passed over, or the end of the list. */
  function StopFrom(s: Store, cr: Cr, os: seq<Observatorium>, depth: nat, i: nat): (r: nat)
    requires i <= |os|
    ensures i <= r <= |os| && (r < |os| ==> !TurnEnds(s, cr, os[r], depth).Completed?)
    ensures forall j :: i <= j < r ==> TurnEnds(s, cr, os[j], depth).Completed?
    decreases |os| - i
  {
    if i == |os| || !TurnEnds(s, cr, os[i], depth).Completed? then i else StopFrom(s, cr, os, depth, i + 1)
  }

  /** How the list ends, and how many entries it got past: the one it stops at counts if only its token is unreadable. */
  function ListEnds(s: Store, cr: Cr, os: seq<Observatorium>, depth: nat): Outcome {
    var stop := StopFrom(s, cr, os, depth, 0);
    if stop == |os| then Completed else TurnEnds(s, cr, os[stop], depth)
  }

  function PassedBy(s: Store, cr: Cr, os: seq<Observatorium>, depth: nat): nat {
    var stop := StopFrom(s, cr, os, depth, 0);
    if stop < |os| && Resolved(s, cr, os[stop], depth).Assigned? then stop + 1 else stop
  }

  /** The list after it was gone through, as the store at the start decides it. */
  function Settled(s: Store, cr: Cr, os: seq<Observatorium>, depth: nat): (r: seq<Observatorium>)
    ensures |r| == |os|
  {
    if cr.ObservatoriumDisabled() then os
    else if ListEnds(s, cr, os, depth).Completed? then
      seq(|os|, i requires 0 <= i < |os| => Resolved(s, cr, os[i], depth).o)
    else Left(s, cr, os, depth, PassedBy(s, cr, os, depth))
  }

  /** Where the loop stops is where the first entry is that is not passed over. */
  lemma StopsAt(s: Store, cr: Cr, os: seq<Observatorium>, depth: nat, i: nat)
    requires i <= |os| && (forall j :: 0 <= j < i ==> TurnEnds(s, cr, os[j], depth).Completed?)
    requires i < |os| ==> !TurnEnds(s, cr, os[i], depth).Completed?
    ensures StopFrom(s, cr, os, depth, 0) == i
  {
  }

  /** Nothing but the credentials of a shared entry may differ. */
  predicate SameButLogin(o: Observatorium, r: Observatorium) {
    r == o || (Shared(o) && r.dex.Some? && r == o.(dex := Some(o.dex.value.(
      username := r.dex.value.username, password := r.dex.value.password, secret := r.dex.value.secret))))
  }

  ghost predicate OnlyLogins(os: seq<Observatorium>, list: seq<Observatorium>) {
    |list| == |os| && forall i :: 0 <= i < |os| ==> SameButLogin(os[i], list[i])
  }

  lemma TouchedKeepsRest(s: Store, cr: Cr, o: Observatorium, depth: nat)
    ensures SameButLogin(o, Touched(s, cr, o, depth))
  {
  }

  lemma LoginsRespected(os: seq<Observatorium>, list: seq<Observatorium>)
    requires OnlyLogins(os, list)
    ensures AllRespected(os, list)
  {
    forall i | 0 <= i < |os| ensures Respects(os[i], list[i]) {
      assert SameButLogin(os[i], list[i]);
    }
  }

  /**
   An error does not leave the list alone: behind a Dex entry with preset credentials comes one whose secret
   is missing, and the first entry keeps the credentials that its secret holds.
   */
  lemma FailureLeavesLogin(cr: Cr, depth: nat)
    requires !cr.ObservatoriumDisabled() && depth > 0
    ensures
      var dex := Some(DexConfig("", "", "", "", "", "login"));
      var os := [Observatorium("a", "", "", "", AuthTypeDex, dex, None), Observatorium("b", "missing", "", "", "", None, None)];
      var s: Store := map[Key(Secret, cr.ns, "login") := Blank.(data := map["username" := "me"])];
      && ListEnds(s, cr, os, depth).Errored?
      && Settled(s, cr, os, depth) != os && Settled(s, cr, os, depth)[0].dex.value.username == "me"
  {
    var dex := Some(DexConfig("", "", "", "", "", "login"));
    var os := [Observatorium("a", "", "", "", AuthTypeDex, dex, None), Observatorium("b", "missing", "", "", "", None, None)];
    var k := Key(Secret, cr.ns, "login");
    var s: Store := map[k := Blank.(data := map["username" := "me"])];
    assert TokenKey(cr, "a").name[0] == 'o' && k.name[0] == 'l';
    assert CredentialKey(cr, os[0]) == k;
    assert Resolved(s, cr, os[0], depth) == Assigned(WithCredentials(os[0], s[k]));
    assert "missing"[0] == 'm';
    assert Resolved(s, cr, os[1], depth).AssignError?;
    StopsAt(s, cr, os, depth, 1);
    assert Settled(s, cr, os, depth)[0] == Touched(s, cr, os[0], depth);
  }

  // ---------- The loop ----------

  /** One turn: resolve the entry, then look after its token. */
  method ReconcileOne(c: Cluster, cr: Cr, o: Observatorium, dex: Dex, now: int, depth: nat) returns (out: Outcome, taken: Option<Observatorium>)
    modifies c
    ensures old(c.log) <= c.log
    ensures OnlyTokens(cr, c.log, |old(c.log)|, old(c.store), c.store, {TokenKey(cr, o.id)})
    ensures out.Completed? ==> taken.Some?
    ensures out.Crashed? ==> Resolved(old(c.store), cr, o, depth).StackOverflow?
    ensures taken.Some? ==> Resolved(old(c.store), cr, o, depth) == Assigned(taken.value)
    ensures c.Reliable() ==> out == TurnEnds(old(c.store), cr, o, depth)
    ensures c.Reliable() ==> (taken.Some? <==> Resolved(old(c.store), cr, o, depth).Assigned?)
    ensures taken.None? ==> c.store == old(c.store)
    ensures c.Reliable() && taken.Some? ==>
      TokenKept(dex, taken.value, now, Lookup(old(c.store), TokenKey(cr, o.id)), Lookup(c.store, TokenKey(cr, o.id)))
  {
    ResolvedRespects(c.store, cr, o, depth);
    var a := Resolve(c, cr, o, depth);
    match a {
      case AssignError => out, taken := Errored, None;
      case StackOverflow => out, taken := Crashed, None;
      case Assigned(r) =>
        taken := Some(r);
        var ok := KeepTokenFresh(c, cr, r, dex, now);
        out := if ok then Completed else Errored;
    }
  }

  /** The caller's list while the loop runs: the pointer of a resolved entry leads to its new credentials. */
  function WrittenThrough(left: seq<Observatorium>, i: nat, taken: Option<Observatorium>): seq<Observatorium>
    requires i < |left|
  {
    if taken.Some? && Shared(left[i]) then left[i := taken.value] else left
  }

  /** The first `i` entries are behind the loop: `transformed` holds them resolved, and the caller's list is `left`. */
  ghost predicate Behind(start: Store, cr: Cr, os: seq<Observatorium>, depth: nat, i: nat, transformed: seq<Observatorium>, left: seq<Observatorium>) {
    && |transformed| == i <= |os| && AllRespected(os[..i], transformed) && OnlyLogins(os, left)
    && (Apart(cr, os) ==> left == Left(start, cr, os, depth, i))
    && (Apart(cr, os) ==> forall j :: 0 <= j < i ==> Resolved(start, cr, os[j], depth) == Assigned(transformed[j]))
  }

  /** The turn of entry `i` in the store `mid`. */
  lemma WriteOn(start: Store, mid: Store, cr: Cr, os: seq<Observatorium>, depth: nat, i: nat, left: seq<Observatorium>, taken: Option<Observatorium>)
    requires i < |os| && OnlyLogins(os, left) && left[i] == os[i] && (Apart(cr, os) ==> left == Left(start, cr, os, depth, i))
    requires Apart(cr, os) ==> Resolved(start, cr, os[i], depth) == Resolved(mid, cr, os[i], depth)
    requires taken.Some? ==> Resolved(mid, cr, os[i], depth) == Assigned(taken.value)
    ensures
      var next := WrittenThrough(left, i, taken);
      && OnlyLogins(os, next)
      && (Apart(cr, os) ==> next == Left(start, cr, os, depth, if taken.Some? then i + 1 else i))
      && (forall j :: i < j < |os| ==> next[j] == left[j])
  {
    TouchedKeepsRest(mid, cr, os[i], depth);
  }

  lemma BehindOn(start: Store, mid: Store, cr: Cr, os: seq<Observatorium>, depth: nat, i: nat,
                 transformed: seq<Observatorium>, left: seq<Observatorium>, r: Observatorium)
    requires i < |os| && Behind(start, cr, os, depth, i, transformed, left) && left[i] == os[i]
    requires Apart(cr, os) ==> Resolved(start, cr, os[i], depth) == Resolved(mid, cr, os[i], depth)
    requires Resolved(mid, cr, os[i], depth) == Assigned(r)
    ensures Behind(start, cr, os, depth, i + 1, transformed + [r], WrittenThrough(left, i, Some(r)))
  {
    WriteOn(start, mid, cr, os, depth, i, left, Some(r));
    ResolvedRespects(mid, cr, os[i], depth);
    assert os[..i + 1] == os[..i] + [os[i]];
  }

  /** What is still ahead is as it was at the start: the entries themselves, and with distinct ids their tokens. */
  ghost predicate Ahead(start: Store, now: Store, cr: Cr, os: seq<Observatorium>, i: nat, left: seq<Observatorium>) {
    && |left| == |os| && (forall j :: i <= j < |os| ==> left[j] == os[j])
    && (DistinctObservatoria(os) ==> forall j :: i <= j < |os| ==> Lookup(now, TokenKey(cr, os[j].id)) == Lookup(start, TokenKey(cr, os[j].id)))
  }

  lemma AheadOn(start: Store, mid: Store, now: Store, cr: Cr, os: seq<Observatorium>, i: nat, left: seq<Observatorium>, next: seq<Observatorium>)
    requires i < |os| && Ahead(start, mid, cr, os, i, left) && SameOutside(mid, now, {TokenKey(cr, os[i].id)})
    requires |next| == |os| && forall j :: i < j < |os| ==> next[j] == left[j]
    ensures Ahead(start, now, cr, os, i + 1, next)
  {
    if DistinctObservatoria(os) {
      forall j | i < j < |os| ensures Lookup(now, TokenKey(cr, os[j].id)) == Lookup(start, TokenKey(cr, os[j].id)) {
        TokenKeyInjective(cr, os[i].id, os[j].id);
      }
    }
  }

  /** So the turn ends as the store at the start says. */
  lemma TurnAlike(start: Store, mid: Store, cr: Cr, os: seq<Observatorium>, depth: nat, i: nat, left: seq<Observatorium>)
    requires i < |os| && Ahead(start, mid, cr, os, i, left) && SameOutside(start, mid, TokenKeys(cr, os))
    ensures Apart(cr, os) ==> Resolved(start, cr, os[i], depth) == Resolved(mid, cr, os[i], depth)
    ensures Apart(cr, os) && DistinctObservatoria(os) ==> TurnEnds(start, cr, os[i], depth) == TurnEnds(mid, cr, os[i], depth)
  {
    if Apart(cr, os) { ResolvedFromSources(start, mid, TokenKeys(cr, os), cr, os[i], depth); }
    if DistinctObservatoria(os) { assert Lookup(mid, TokenKey(cr, os[i].id)) == Lookup(start, TokenKey(cr, os[i].id)); }
  }

  /** Where nothing interferes, every entry so far was passed over. */
  ghost predicate PassedOver(start: Store, cr: Cr, os: seq<Observatorium>, depth: nat, i: nat) {
    i <= |os| && forall j :: 0 <= j < i ==> TurnEnds(start, cr, os[j], depth).Completed?
  }

  /** The token secrets after `p` turns, entry by entry as the store at the start says. */
  ghost predicate TokensKept(dex: Dex, start: Store, end: Store, cr: Cr, os: seq<Observatorium>, depth: nat, now: int, p: nat) {
    p <= |os| && forall i :: 0 <= i < |os| ==> TokenAfter(dex, start, end, cr, os[i], depth, now, i < p)
  }

  ghost predicate TokenAfter(dex: Dex, start: Store, end: Store, cr: Cr, o: Observatorium, depth: nat, now: int, passed: bool) {
    var before, after := Lookup(start, TokenKey(cr, o.id)), Lookup(end, TokenKey(cr, o.id));
    if passed then Resolved(start, cr, o, depth).Assigned? && TokenKept(dex, Resolved(start, cr, o, depth).o, now, before, after)
    else after == before
  }

  lemma TokensKeptOn(dex: Dex, start: Store, mid: Store, end: Store, cr: Cr, os: seq<Observatorium>, depth: nat, now: int, i: nat, taken: Option<Observatorium>)
    requires i < |os| && TokensKept(dex, start, mid, cr, os, depth, now, i) && DistinctObservatoria(os)
    requires SameOutside(mid, end, {TokenKey(cr, os[i].id)}) && (taken.None? ==> end == mid)
    requires taken.Some? ==>
      && Resolved(start, cr, os[i], depth) == Assigned(taken.value)
      && TokenKept(dex, taken.value, now, Lookup(mid, TokenKey(cr, os[i].id)), Lookup(end, TokenKey(cr, os[i].id)))
    ensures TokensKept(dex, start, end, cr, os, depth, now, if taken.Some? then i + 1 else i)
  {
    var p := if taken.Some? then i + 1 else i;
    assert TokenAfter(dex, start, mid, cr, os[i], depth, now, false);
    forall j | 0 <= j < |os| ensures TokenAfter(dex, start, end, cr, os[j], depth, now, j < p) {
      if j != i {
        TokenKeyInjective(cr, os[i].id, os[j].id);
        assert TokenAfter(dex, start, mid, cr, os[j], depth, now, j < i);
      }
    }
  }

  ghost predicate Decided(c: Cluster, cr: Cr, os: seq<Observatorium>) {
    c.Reliable() && Apart(cr, os) && DistinctObservatoria(os)
  }

  /**
   On success the list is replaced by one of the same length, order and ids in which what the index states
   outright stands. A failure does not put everything back: credentials already fetched for a preset Dex
   configuration stay in the caller's list, `passed` entries deep. If the configuration secrets are apart from the
   token secrets and the ids distinct, a healthy cluster ends as the store at the start decides.
   */
  method ReconcileObservatoria(c: Cluster, cr: Cr, os: seq<Observatorium>, dex: Dex, now: int, depth: nat)
    returns (out: Outcome, list: seq<Observatorium>, ghost passed: nat)
    modifies c
    ensures old(c.log) <= c.log
    ensures OnlyTokens(cr, c.log, |old(c.log)|, old(c.store), c.store, TokenKeys(cr, os))
    ensures AllRespected(os, list)
    ensures !out.Completed? ==> OnlyLogins(os, list)
    ensures !out.Completed? && Apart(cr, os) ==> list == Left(old(c.store), cr, os, depth, passed)
    ensures cr.ObservatoriumDisabled() ==> out.Completed? && list == os && c.store == old(c.store)
    ensures out.Completed? && !cr.ObservatoriumDisabled() && Apart(cr, os) ==>
      forall i :: 0 <= i < |os| ==> Resolved(old(c.store), cr, os[i], depth) == Assigned(list[i])
    ensures out.Crashed? ==> exists i :: 0 <= i < |os| && os[i].secretName != "" && (depth == 0 || os[i].dex.Some?)
    ensures out.Crashed? && Apart(cr, os) ==> exists i :: 0 <= i < |os| && Overflows(old(c.store), cr, os[i], depth)
    ensures Decided(c, cr, os) && !cr.ObservatoriumDisabled() ==>
      && out == ListEnds(old(c.store), cr, os, depth) && list == Settled(old(c.store), cr, os, depth)
      && passed == PassedBy(old(c.store), cr, os, depth)
      && TokensKept(dex, old(c.store), c.store, cr, os, depth, now, passed)
  {
    list, out, passed := os, Completed, |os|;
    if cr.ObservatoriumDisabled() { return; }
    var transformed: seq<Observatorium> := [];
    for i := 0 to |os|
      invariant old(c.log) <= c.log && out == Completed
      invariant OnlyTokens(cr, c.log, |old(c.log)|, old(c.store), c.store, TokenKeys(cr, os))
      invariant Behind(old(c.store), cr, os, depth, i, transformed, list) && Ahead(old(c.store), c.store, cr, os, i, list)
      invariant Decided(c, cr, os) ==> PassedOver(old(c.store), cr, os, depth, i) && TokensKept(dex, old(c.store), c.store, cr, os, depth, now, i)
    {
      ghost var before, mid, was := c.log, c.store, list;
      TurnAlike(old(c.store), mid, cr, os, depth, i, list);
      var taken;
      out, taken := ReconcileOne(c, cr, os[i], dex, now, depth);
      OnlyTokensOn(cr, before, c.log, |old(c.log)|, old(c.store), mid, c.store, {TokenKey(cr, os[i].id)}, TokenKeys(cr, os));
      WriteOn(old(c.store), mid, cr, os, depth, i, list, taken);
      list := WrittenThrough(list, i, taken);
      if Decided(c, cr, os) {
        TokensKeptOn(dex, old(c.store), mid, c.store, cr, os, depth, now, i, taken);
        if !out.Completed? { StopsAt(old(c.store), cr, os, depth, i); }
      }
      if !out.Completed? {
        passed := if taken.Some? then i + 1 else i;
        CrashedAt(old(c.store), mid, cr, os, depth, i, out);
        break;
      }
      BehindOn(old(c.store), mid, cr, os, depth, i, transformed, was, taken.value);
      AheadOn(old(c.store), mid, c.store, cr, os, i, was, list);
      transformed := transformed + [taken.value];
    }
    if out.Completed? {
      assert os[..|os|] == os;
      if Decided(c, cr, os) { StopsAt(old(c.store), cr, os, depth, |os|); }
      list := transformed;
    } else {
      LoginsRespected(os, list);
    }
  }

  /** The entry behind a crash. */
  lemma CrashedAt(start: Store, mid: Store, cr: Cr, os: seq<Observatorium>, depth: nat, i: nat, out: Outcome)
    requires i < |os| && (Apart(cr, os) ==> Resolved(start, cr, os[i], depth) == Resolved(mid, cr, os[i], depth))
    requires out.Crashed? ==> Resolved(mid, cr, os[i], depth).StackOverflow?
    ensures out.Crashed? ==> exists i :: 0 <= i < |os| && os[i].secretName != "" && (depth == 0 || os[i].dex.Some?)
    ensures out.Crashed? && Apart(cr, os) ==> exists i :: 0 <= i < |os| && Overflows(start, cr, os[i], depth)
  {
    ResolvedOverflowsIff(mid, cr, os[i], depth);
    if out.Crashed? && Apart(cr, os) { assert Overflows(start, cr, os[i], depth); }
  }
}
