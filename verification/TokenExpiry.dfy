/**
 The life of an access token: when the fetcher says it ends, how that is stored, and what the two
 readers of the stored lifetime make of it. Instants are nanoseconds since the Unix epoch.
 */
module TokenExpiry {
  import opened Kube
  import opened Observability
  import opened Decimal

  const Second := 1_000_000_000
  const Hour := 3600 * Second

  /** Go's int64 arithmetic. */
  function Wrap64(x: int): int {
    (x - MinInt64) % 0x1_0000_0000_0000_0000 + MinInt64
  }

  function UnixSeconds(t: int): int { t / Second }

  /** The last lines of Fetch: `expiresIn` (the expires_in of section 5.1 of RFC 6749) seconds from now. */
  function Expires(now: int, expiresIn: int): int {
    UnixSeconds(now + Wrap64(expiresIn * Second))
  }

  /** Time for renewal, one hour ahead; never for lifetimes that are not positive. */
  predicate AuthTokenExpires(now: int, expires: int) {
    expires > 0 && now + Hour > expires * Second
  }

  /** The largest expires_in whose nanoseconds fit into a time.Duration. */
  const MaxExpiresIn := 9223372036

  lemma NoWrap(now: int, expiresIn: int)
    requires 0 <= expiresIn <= MaxExpiresIn
    ensures Expires(now, expiresIn) == UnixSeconds(now) + expiresIn
  {
    assert 0 <= expiresIn * Second <= MaxInt64;
    assert Wrap64(expiresIn * Second) == expiresIn * Second;
    assert (now + expiresIn * Second) / Second == now / Second + expiresIn;
  }

  /** Not due until an hour and a second before the end, due from an hour before it, whatever the fraction of a second. */
  lemma Window(saved: int, expiresIn: int, now: int)
    requires 0 <= saved && 3600 < expiresIn <= MaxExpiresIn
    ensures now <= saved + (expiresIn - 3601) * Second ==> !AuthTokenExpires(now, Expires(saved, expiresIn))
    ensures now > saved + (expiresIn - 3600) * Second ==> AuthTokenExpires(now, Expires(saved, expiresIn))
  {
    NoWrap(saved, expiresIn);
    var floor := UnixSeconds(saved);
    assert floor * Second <= saved < floor * Second + Second;
  }

  /**
   Does a token count as due once it has really expired? Exactly when the wrapped number of nanoseconds,
   added to the time it was saved at, still lies a second after the epoch.
   */
  lemma DueAfterExpiryIff(saved: int, expiresIn: int)
    requires 0 <= saved && 0 < expiresIn && Int64(expiresIn)
    ensures (forall now :: now >= saved + expiresIn * Second ==> AuthTokenExpires(now, Expires(saved, expiresIn)))
      <==> saved + Wrap64(expiresIn * Second) >= Second
    ensures expiresIn <= MaxExpiresIn ==> saved + Wrap64(expiresIn * Second) >= Second
  {
    var e := Expires(saved, expiresIn);
    var sum := saved + Wrap64(expiresIn * Second);
    var end := saved + expiresIn * Second;
    if expiresIn <= MaxExpiresIn {
      assert 0 <= expiresIn * Second <= MaxInt64;
      assert Wrap64(expiresIn * Second) == expiresIn * Second;
    }
    assert Wrap64(expiresIn * Second) <= expiresIn * Second by { WrapNeverGains(expiresIn * Second); }
    assert e * Second <= sum < e * Second + Second;
    if e <= 0 {
      assert !AuthTokenExpires(end, e);
    }
  }

  lemma WrapNeverGains(x: int)
    requires x >= 0
    ensures Wrap64(x) <= x
  {
    var y := x - MinInt64;
    assert y % 0x1_0000_0000_0000_0000 <= y;
  }

  /** One second more than a Duration holds: the product wraps, and the token is never due again. */
  lemma OverflowNeverDue(saved: int, now: int)
    requires 0 <= saved <= MaxInt64 - MaxExpiresIn
    ensures !AuthTokenExpires(now, Expires(saved, MaxExpiresIn + 1))
  {
    assert Wrap64((MaxExpiresIn + 1) * Second) == (MaxExpiresIn + 1) * Second - 0x1_0000_0000_0000_0000;
  }

  // ---------- The token secret ----------

  const TokenLabels: Labels := ManagedBy["purpose" := "observatorium-token-secret"]

  function TokenKey(cr: Cr, id: string): Key {
    Key(Secret, cr.ns, "obs-token-" + id)
  }

  function SavedToken(token: string, lifetime: int): Obj -> Obj {
    (o: Obj) => o.(labels := TokenLabels, data := o.data["token" := token]["lifetime" := FormatInt(lifetime)])
  }

  /** What saving a token writes. */
  function TokenMark(ns: string): (Key, Obj) -> bool {
    (k: Key, o: Obj) => k.kind == Secret && k.ns == ns && Matches(o, TokenLabels)
  }

  method SaveToken(c: Cluster, cr: Cr, id: string, token: string, lifetime: int) returns (ok: bool)
    modifies c
    ensures old(c.log) <= c.log
    ensures Still(c.log, |old(c.log)|, c.store)
    ensures forall k :: k != TokenKey(cr, id) ==> (k in c.store <==> k in old(c.store)) && (k in c.store ==> c.store[k] == old(c.store)[k])
    ensures ok ==>
      && TokenKey(cr, id) in c.store
      && Matches(c.store[TokenKey(cr, id)], TokenLabels)
      && Saved(c.store[TokenKey(cr, id)], token, lifetime)
      && Stored(c.store[TokenKey(cr, id)]) == Held(token, ParseInt(FormatInt(lifetime)))
    ensures Adds(old(c.store), c.store, TokenMark(cr.ns))
    ensures c.Reliable() ==> ok
  {
    ok := c.CreateOrUpdate(TokenKey(cr, id), SavedToken(token, lifetime));
  }

  /** The fields that saving writes. */
  predicate Saved(o: Obj, token: string, lifetime: int) {
    "token" in o.data && o.data["token"] == token && "lifetime" in o.data && o.data["lifetime"] == FormatInt(lifetime)
  }

  /** A token secret's content: no token at all, or a token and its lifetime, None if that does not parse. */
  datatype Content = NoToken | Held(token: string, lifetime: Option<int>)

  /** findToken's reading of a secret; a missing lifetime reads as zero. */
  function Stored(o: Obj): Content {
    if "token" !in o.data then NoToken
    else Held(o.data["token"], ParseInt(if "lifetime" in o.data then o.data["lifetime"] else "0"))
  }

  datatype FindResult = Token(token: string, lifetime: int) | FindError

  method FindToken(c: Cluster, cr: Cr, id: string) returns (r: FindResult)
    modifies c
    ensures c.store == old(c.store) && old(c.log) <= c.log && Still(c.log, |old(c.log)|, c.store)
    ensures r.Token? && TokenKey(cr, id) !in c.store ==> r == Token("", 0)
    ensures r.Token? && TokenKey(cr, id) in c.store ==> Stored(c.store[TokenKey(cr, id)]) == Held(r.token, Some(r.lifetime))
    ensures c.Reliable() ==> (r.FindError? <==>
      TokenKey(cr, id) in c.store && (Stored(c.store[TokenKey(cr, id)]).NoToken? || Stored(c.store[TokenKey(cr, id)]).lifetime.None?))
  {
    var reply := c.Get(TokenKey(cr, id));
    match reply {
      case NotFound => return Token("", 0);
      case GetFailed => return FindError;
      case Found(secret) =>
        if "token" !in secret.data { return FindError; }
        var lifetime := if "lifetime" in secret.data then secret.data["lifetime"] else "0";
        var left := ParseInt(lifetime);
        return if left.Some? then Token(secret.data["token"], left.value) else FindError;
    }
  }

  // ---------- The two readers ----------

  datatype View = Due | NotDue | Broken

  /** TokensExpired on one listed secret; here a missing lifetime means expired. */
  function ListerView(o: Obj, now: int): View {
    if "lifetime" !in o.data then Due
    else match ParseInt(o.data["lifetime"])
      case None => Broken
      case Some(expires) => if AuthTokenExpires(now, expires) then Due else NotDue
  }

  /** The refresh test of ReconcileObservatoria on the same secret. */
  function RefreshView(o: Obj, now: int): View {
    match Stored(o)
    case NoToken => Broken
    case Held(token, lifetime) =>
      if lifetime.None? then Broken
      else if token == "" || AuthTokenExpires(now, lifetime.value) then Due
      else NotDue
  }

  datatype Expired = Expired(any: bool) | CheckFailed

  method TokensExpired(c: Cluster, cr: Cr, now: int) returns (r: Expired)
    modifies c
    ensures c.store == old(c.store) && old(c.log) <= c.log && Still(c.log, |old(c.log)|, c.store)
    ensures forall i :: |old(c.log)| <= i < |c.log| ==> c.log[i].op == Read && c.log[i].post.store == c.store
    ensures r == Expired(true) ==> exists k :: k in Selected(c.store, Secret, cr.ns, TokenLabels) && ListerView(c.store[k], now) == Due
    ensures r == Expired(false) ==> forall k :: k in Selected(c.store, Secret, cr.ns, TokenLabels) ==> ListerView(c.store[k], now) == NotDue
    ensures c.Reliable() && r.CheckFailed? ==>
      exists k :: k in Selected(c.store, Secret, cr.ns, TokenLabels) && ListerView(c.store[k], now) == Broken
  {
    var listing := c.List(Secret, cr.ns, TokenLabels);
    if listing.ListFailed? { return CheckFailed; }
    for i := 0 to |listing.order|
      invariant forall j :: 0 <= j < i ==> listing.order[j] in c.store && ListerView(c.store[listing.order[j]], now) == NotDue
    {
      var secret := listing.items[listing.order[i]];
      assert listing.order[i] in listing.items;
      if "lifetime" !in secret.data { return Expired(true); }
      var expires := ParseInt(secret.data["lifetime"]);
      if expires.None? { return CheckFailed; }
      if AuthTokenExpires(now, expires.value) { return Expired(true); }
    }
    return Expired(false);
  }

  /** The lifetime is there and not a number. */
  predicate LifetimeBroken(o: Obj) { "lifetime" in o.data && ParseInt(o.data["lifetime"]).None? }

  /** When the two readers of a secret agree at all times, whatever the secret holds. */
  lemma ReadersAgreeIff(o: Obj)
    ensures (forall now :: ListerView(o, now) == RefreshView(o, now)) <==>
      if "token" !in o.data then LifetimeBroken(o)
      else if o.data["token"] == "" then "lifetime" !in o.data || LifetimeBroken(o)
      else "lifetime" in o.data
  {
    ParseZero();
    if "lifetime" in o.data && ParseInt(o.data["lifetime"]).Some? {
      var e := ParseInt(o.data["lifetime"]).value;
      assert ListerView(o, e * Second - Hour) == NotDue;
    } else {
      assert ListerView(o, 0) == if "lifetime" in o.data then Broken else Due;
      assert RefreshView(o, 0) == RefreshView(o, 1);
    }
  }

  /** What is saved for an authentication type without tokens: never due to the lister, always to the refresh test. */
  lemma NilTokenDisagrees(o: Obj, now: int)
    requires Saved(o, "", 0)
    ensures ListerView(o, now) == NotDue && RefreshView(o, now) == Due
  {
    RoundTrip(0);
  }

  lemma ParseZero()
    ensures ParseInt("0") == Some(0)
  {
    assert "0"[..0] == "";
    assert NatValue("0") == NatValue("0"[..0]) * 10 + DigitValue('0');
  }

  /**
   A token saved at `saved` with a sane expires_in: through wrap-around, truncation to seconds, decimal
   text and back, neither reader refreshes it before its last hour (and second) and both do in its last hour.
   */
  lemma SavedTokenWindow(o: Obj, token: string, saved: int, expiresIn: int, now: int)
    requires token != "" && 0 <= saved && UnixSeconds(saved) <= MaxInt64 - MaxExpiresIn
    requires 3600 < expiresIn <= MaxExpiresIn && Saved(o, token, Expires(saved, expiresIn))
    ensures
      && ListerView(o, now) == RefreshView(o, now)
      && (now <= saved + (expiresIn - 3601) * Second ==> ListerView(o, now) == NotDue)
      && (now > saved + (expiresIn - 3600) * Second ==> ListerView(o, now) == Due)
  {
    NoWrap(saved, expiresIn);
    Window(saved, expiresIn, now);
    RoundTrip(Expires(saved, expiresIn));
  }
}
