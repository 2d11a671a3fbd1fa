/**
 * LocationService: the table from address-of-record keys to subscriber
 * profiles, the registration operations the registrar calls on it, and the
 * periodic sweep that ages bindings and drops the expired ones.
 *
 * The service is reached through a remote interface, so contacts and
 * bindings cross its boundary as values: an incoming Contact header is
 * copied into a header object of the service's own, and what is handed out
 * are values. The clock and the configuration files are inputs; the
 * timer that runs the sweep is the caller of `CheckBindings`.
 */
module LocationServices {
  import opened Common
  import opened Sip
  import opened SipUtils
  import opened Bindings
  import opened UserProfiles
  import opened Snmp

  const SNMP_ROOT_OID: string := "1.3.6.1.4.1.1937.1."
  const SNMP_OID_NUM_SUBSCRIBERS: string := SNMP_ROOT_OID + "1.1"
  const SNMP_OID_NUM_BINDINGS: string := SNMP_ROOT_OID + "1.2"

  /** The outcome of a per-key operation: a value, or UserNotFoundException. */
  datatype Lookup<T> = Found(value: T) | UserNotFound

  // ---------------------------------------------------------------------
  // Configuration

  /** `Properties.getProperty(name, default)`. */
  function Property(props: map<string, string>, name: string, default: string): string {
    if name in props then props[name] else default
  }

  /**
   * `getProperty(name, default).trim()`. The built-in defaults are already
   * trimmed, so only a configured value is trimmed here
   * (`SettingIsTrimmedProperty`).
   */
  function Setting(props: map<string, string>, name: string, default: string): string {
    if name in props then Trim(props[name]) else default
  }

  /** A string with no white space at either end. */
  predicate Trimmed(s: string) {
    s == [] || (!IsSpace(s[0]) && !IsSpace(s[|s| - 1]))
  }

  lemma SettingIsTrimmedProperty(props: map<string, string>, name: string, default: string)
    requires Trimmed(default)
    ensures Setting(props, name, default) == Trim(Property(props, name, default))
  {
    TrimOfTrimmed(default);
  }

  const DEFAULT_DOMAIN: string := "openjsip.net"

  /** The built-in default domain is already trimmed and in lower case. */
  lemma DefaultDomainNormal()
    ensures Trimmed(DEFAULT_DOMAIN) && ToLower(DEFAULT_DOMAIN) == DEFAULT_DOMAIN
  {
    assert forall i :: 0 <= i < |DEFAULT_DOMAIN| ==> !('A' <= DEFAULT_DOMAIN[i] <= 'Z');
    LowerOfLower(DEFAULT_DOMAIN);
  }

  /**
   * The default domain: the configured one trimmed and lower-cased,
   * "openjsip.net" when not configured (`DefaultDomainAsRead`).
   */
  function DefaultDomainOf(props: map<string, string>): string {
    var key := "location.service.default.domain";
    if key in props then ToLower(Trim(props[key])) else DEFAULT_DOMAIN
  }

  /** The default domain is in lower case, and it is "openjsip.net" unless configured. */
  lemma DefaultDomainLower(props: map<string, string>)
    ensures ToLower(DefaultDomainOf(props)) == DefaultDomainOf(props)
    ensures "location.service.default.domain" !in props ==> DefaultDomainOf(props) == DEFAULT_DOMAIN
  {
    var key := "location.service.default.domain";
    if key in props {
      LowerIdempotent(Trim(props[key]));
    } else {
      DefaultDomainNormal();
    }
  }

  /** The default domain is `getProperty(..., "openjsip.net").trim().toLowerCase()`. */
  lemma DefaultDomainAsRead(props: map<string, string>)
    ensures DefaultDomainOf(props) == ToLower(Trim(Property(props, "location.service.default.domain", DEFAULT_DOMAIN)))
  {
    DefaultDomainNormal();
    TrimOfTrimmed(DEFAULT_DOMAIN);
  }

  /**
   * An integer setting: the configured value, trimmed, when `parseInt`
   * accepts it; otherwise (missing or NumberFormatException) the default
   * (`IntSettingAsRead`).
   */
  function IntSetting(props: map<string, string>, name: string, default: int): (r: int)
    ensures name !in props ==> r == default
    ensures name in props && ParseInt(Trim(props[name])).Some? ==> r == ParseInt(Trim(props[name])).value
    ensures name in props && ParseInt(Trim(props[name])).None? ==> r == default
  {
    if name in props then
      match ParseInt(Trim(props[name]))
      case Some(v) => v
      case None => default
    else default
  }

  /**
   * Parsing `getProperty(name, Integer.toString(default)).trim()` gives the
   * same value: the default's own text parses back to it.
   */
  lemma IntSettingAsRead(props: map<string, string>, name: string, default: nat)
    requires default <= INT32_MAX
    ensures IntSetting(props, name, default)
         == match ParseInt(Trim(Property(props, name, NatToString(default)))) case Some(v) => v case None => default
  {
    var text := NatToString(default);
    TrimOfTrimmed(text);
    ParseIntOfRendering(default);
  }

  /** How many `user.<n>` entries are read: `user.max`, but never fewer than 100. */
  function MaxUsers(db: map<string, string>): (r: int)
    ensures r >= 100
    ensures "user.max" !in db ==> r == 100
    ensures "user.max" in db && ParseInt(Trim(db["user.max"])).Some? && ParseInt(Trim(db["user.max"])).value >= 100
            ==> r == ParseInt(Trim(db["user.max"])).value
    ensures r != 100 ==> "user.max" in db && ParseInt(Trim(db["user.max"])) == Some(r)
  {
    Max(100, IntSetting(db, "user.max", 100))
  }

  /**
   * With `user.max` at 2147483647 the source's provisioning loop,
   * `for (int index = 1; index <= maxUsers; index++)`, never ends: every
   * `int` index is within the bound, and `index++` past 2147483647 wraps to
   * -2147483648, which is within it again. (`ProvisionTable` models the loop
   * that stops after `maxUsers`.)
   */
  lemma ProvisionLoopWraps(db: map<string, string>)
    requires "user.max" in db && ParseInt(Trim(db["user.max"])) == Some(INT32_MAX)
    ensures MaxUsers(db) == INT32_MAX
    ensures ToInt32(MaxUsers(db) + 1) == INT32_MIN
    ensures forall index :: IsInt32(index) ==> index <= MaxUsers(db) && ToInt32(index + 1) <= MaxUsers(db)
  {
  }

  /** The sweep period in seconds: `location.service.update-period`, 5 by default, at least 1. */
  function UpdatePeriod(props: map<string, string>): (r: int)
    ensures r >= 1
    ensures "location.service.update-period" !in props ==> r == 5
    ensures var key := "location.service.update-period";
            key in props && ParseInt(Trim(props[key])).Some? && ParseInt(Trim(props[key])).value >= 1
            ==> r == ParseInt(Trim(props[key])).value
  {
    Max(1, IntSetting(props, "location.service.update-period", 5))
  }

  /** The SNMP agent runs unless the setting, trimmed, is something other than "yes" in any letter case. */
  predicate SnmpEnabled(props: map<string, string>) {
    var key := "location.service.snmp.agent.enabled";
    key !in props || EqualsIgnoreCase(Trim(props[key]), "yes")
  }

  /** Reading the flag as `getProperty(..., "yes").trim()` compared ignoring case gives the same answer. */
  lemma SnmpEnabledAsRead(props: map<string, string>)
    ensures SnmpEnabled(props)
        == EqualsIgnoreCase(Trim(Property(props, "location.service.snmp.agent.enabled", "yes")), "yes")
  {
    SettingIsTrimmedProperty(props, "location.service.snmp.agent.enabled", "yes");
  }

  /** The SNMP community name: the trimmed setting, "public" by default. */
  function CommunityName(props: map<string, string>): string {
    Setting(props, "location.service.snmp.agent.community", "public")
  }

  // ---------------------------------------------------------------------
  // Provisioning

  /**
   * The address of record entry `user.<index>` of the user database yields:
   * the trimmed text, with "@" and the default domain appended when it has
   * no '@', parsed by `createUri`; nothing when the entry is missing, does
   * not parse or is not a SIP URI; the host of a SIP URI lower-cased.
   */
  function EntryAor(db: map<string, string>, defaultDomain: string, createUri: string -> Option<Uri>, index: int): (r: Option<Uri>)
    ensures r.Some? ==> r.value.SipUri? && ToLower(r.value.host) == r.value.host
  {
    match Entry(db, index)
    case None => None
    case Some(text) =>
      match createUri(Qualified(Trim(text), defaultDomain))
      case None => None
      case Some(uri) => if uri.SipUri? then Some(LowerHost(uri)) else None
  }

  /** The entry `user.<index>`, if there is one. */
  function Entry(db: map<string, string>, index: int): Option<string> {
    var name := "user." + IntToString(index);
    if name in db then Some(db[name]) else None
  }

  /** A user name without '@' is taken to be in the default domain. */
  function Qualified(key: string, defaultDomain: string): string {
    if IndexOf(key, '@') == -1 then key + "@" + defaultDomain else key
  }

  function LowerHost(uri: Uri): (r: Uri)
    requires uri.SipUri?
    ensures r.SipUri? && ToLower(r.host) == r.host && r == uri.(host := ToLower(uri.host))
  {
    LowerIdempotent(uri.host);
    uri.(host := ToLower(uri.host))
  }

  /** The location-service key of a SIP address of record (what `LocationKey` yields for it). */
  function AorKey(aor: Uri): string
    requires aor.SipUri?
  {
    AorText(aor.secure, aor.user, aor.host)
  }

  /** The entries of one user database, by index. */
  function Entries(db: map<string, string>, defaultDomain: string, createUri: string -> Option<Uri>): int -> Option<Uri> {
    index => EntryAor(db, defaultDomain, createUri, index)
  }

  /**
   * One entry read: an accepted address of record is stored under its
   * location-service key (replacing an earlier one with that key) and its
   * host joins the domains; a rejected entry changes nothing. (Entries are
   * only ever SIP URIs; anything else would be rejected too.)
   */
  function Enter(acc: (map<string, Uri>, set<string>), entry: Option<Uri>): (r: (map<string, Uri>, set<string>)) {
    match entry
    case Some(aor) => if aor.SipUri? then (acc.0[AorKey(aor) := aor], acc.1 + {aor.host}) else acc
    case None => acc
  }

  /** The table and the domain set after entries index..n have been read into `acc`, in that order. */
  function ProvisionFrom(entries: int -> Option<Uri>, acc: (map<string, Uri>, set<string>), index: int, n: int): (r: (map<string, Uri>, set<string>))
    decreases n - index
  {
    if index > n then acc
    else ProvisionFrom(entries, Enter(acc, entries(index)), index + 1, n)
  }

  /** The table and the domain set after entries 1..n of the user database. */
  function Provisioned(db: map<string, string>, defaultDomain: string, createUri: string -> Option<Uri>, n: int): (r: (map<string, Uri>, set<string>)) {
    ProvisionFrom(Entries(db, defaultDomain, createUri), (map[], {}), 1, n)
  }

  /** Stored addresses of record are SIP URIs with a lower-case host among the domains, each under its own key. */
  ghost predicate WellShaped(acc: (map<string, Uri>, set<string>)) {
    forall k :: k in acc.0 ==>
      acc.0[k].SipUri? && ToLower(acc.0[k].host) == acc.0[k].host
      && acc.0[k].host in acc.1 && AorKey(acc.0[k]) == k
  }

  /** Every entry of a user database is a SIP URI with a lower-case host, or nothing. */
  ghost predicate NormalEntries(entries: int -> Option<Uri>) {
    forall i :: entries(i).Some? ==> entries(i).value.SipUri? && ToLower(entries(i).value.host) == entries(i).value.host
  }

  lemma EntriesNormal(db: map<string, string>, defaultDomain: string, createUri: string -> Option<Uri>)
    ensures NormalEntries(Entries(db, defaultDomain, createUri))
  {
  }

  /** Entering an accepted address of record stores it and serves its host; what was stored under other keys stays. */
  lemma EnterStores(acc: (map<string, Uri>, set<string>), aor: Uri)
    requires aor.SipUri?
    ensures AorKey(aor) in Enter(acc, Some(aor)).0 && aor.host in Enter(acc, Some(aor)).1
    ensures acc.0.Keys <= Enter(acc, Some(aor)).0.Keys && acc.1 <= Enter(acc, Some(aor)).1
  {
  }

  /** Reading further entries never loses a key or a domain. */
  lemma {:induction false} ProvisionGrows(entries: int -> Option<Uri>, acc: (map<string, Uri>, set<string>), index: int, n: int)
    ensures acc.0.Keys <= ProvisionFrom(entries, acc, index, n).0.Keys
    ensures acc.1 <= ProvisionFrom(entries, acc, index, n).1
    decreases n - index
  {
    if index <= n {
      var next := Enter(acc, entries(index));
      assert acc.0.Keys <= next.0.Keys && acc.1 <= next.1;
      ProvisionGrows(entries, next, index + 1, n);
    }
  }

  lemma {:induction false} ProvisionFromShape(entries: int -> Option<Uri>, acc: (map<string, Uri>, set<string>), index: int, n: int)
    requires WellShaped(acc) && NormalEntries(entries)
    ensures WellShaped(ProvisionFrom(entries, acc, index, n))
    decreases n - index
  {
    if index <= n {
      var next := Enter(acc, entries(index));
      assert WellShaped(next);
      ProvisionFromShape(entries, next, index + 1, n);
    }
  }

  /**
   * Every stored address of record is a SIP URI with a lower-case host that
   * is one of the served domains, stored under its own key.
   */
  lemma ProvisionedShape(db: map<string, string>, defaultDomain: string, createUri: string -> Option<Uri>, n: int)
    ensures WellShaped(Provisioned(db, defaultDomain, createUri, n))
  {
    EntriesNormal(db, defaultDomain, createUri);
    ProvisionFromShape(Entries(db, defaultDomain, createUri), (map[], {}), 1, n);
  }

  lemma {:induction false} ProvisionFromComplete(entries: int -> Option<Uri>, acc: (map<string, Uri>, set<string>), index: int, n: int, i: int)
    requires index <= i <= n && entries(i).Some? && entries(i).value.SipUri?
    ensures AorKey(entries(i).value) in ProvisionFrom(entries, acc, index, n).0
    ensures entries(i).value.host in ProvisionFrom(entries, acc, index, n).1
    decreases n - index
  {
    var next := Enter(acc, entries(index));
    if index == i {
      EnterStores(acc, entries(i).value);
      ProvisionGrows(entries, next, index + 1, n);
    } else {
      ProvisionFromComplete(entries, next, index + 1, n, i);
    }
  }

  /** Every accepted entry up to n has its key in the table and its host among the domains. */
  lemma ProvisionedComplete(db: map<string, string>, defaultDomain: string, createUri: string -> Option<Uri>,
                            n: int, index: int)
    requires 1 <= index <= n && EntryAor(db, defaultDomain, createUri, index).Some?
    ensures var aor := EntryAor(db, defaultDomain, createUri, index).value;
            AorKey(aor) in Provisioned(db, defaultDomain, createUri, n).0
            && aor.host in Provisioned(db, defaultDomain, createUri, n).1
  {
    ProvisionFromComplete(Entries(db, defaultDomain, createUri), (map[], {}), 1, n, index);
  }

  /** An entry without '@' is read as a user of the default domain. */
  lemma EntryWithoutDomain(key: string, defaultDomain: string)
    requires '@' !in key
    ensures Qualified(key, defaultDomain) == key + "@" + defaultDomain
  {
  }

  /** Profiles just created: valid, without bindings. */
  ghost predicate FreshTable(profiles: map<string, UserProfile>)
    reads profiles.Values
  {
    forall k :: k in profiles ==> profiles[k].Valid() && profiles[k].bindings == []
  }

  /** `inverse` gives back the key of each profile of the table, so no profile is under two keys. */
  ghost predicate Inverts(profiles: map<string, UserProfile>, inverse: map<UserProfile, string>) {
    forall k :: k in profiles ==> profiles[k] in inverse && inverse[profiles[k]] == k
  }

  /** The profiles of a table hold exactly the addresses of record of `expected`, and the domains are its domains. */
  ghost predicate Holds(database: map<string, UserProfile>, domains: set<string>, expected: (map<string, Uri>, set<string>))
  {
    domains == expected.1 && database.Keys == expected.0.Keys
    && forall k :: k in database ==> database[k].addressOfRecord == expected.0[k]
  }

  /**
   * The loop itself, on a table of its own: one fresh, empty profile per
   * accepted entry.
   */
  method ProvisionTable(entries: int -> Option<Uri>, maxUsers: int)
      returns (database: map<string, UserProfile>, domains: set<string>, ghost inverse: map<UserProfile, string>)
    requires NormalEntries(entries)
    ensures Holds(database, domains, ProvisionFrom(entries, (map[], {}), 1, maxUsers))
    ensures FreshTable(database) && Inverts(database, inverse)
    ensures forall k :: k in database ==> fresh(database[k])
  {
    database := map[];
    domains := {};
    inverse := map[];
    var index := 1;
    ghost var acc: (map<string, Uri>, set<string>) := (map[], {});
    while index <= maxUsers
      invariant ProvisionFrom(entries, acc, index, maxUsers) == ProvisionFrom(entries, (map[], {}), 1, maxUsers)
      invariant Holds(database, domains, acc)
      invariant FreshTable(database) && Inverts(database, inverse)
      invariant forall k :: k in database ==> fresh(database[k])
      decreases maxUsers - index
    {
      var aor := entries(index);
      acc := Enter(acc, aor);
      if aor.Some? {
        domains := domains + {aor.value.host};
        var key := LocationKey(aor.value).value;
        var profile := new UserProfile(aor.value);
        database := database[key := profile];
        inverse := inverse[profile := key];
      }
      index := index + 1;
    }
  }

  // ---------------------------------------------------------------------
  // The binding lists as values

  /** The first binding of a canonical contact dropped, when there is one; the others keep their order. */
  function RemoveContact(vs: seq<BindingValue>, canonical: Uri): (r: seq<BindingValue>)
    decreases |vs|
  {
    if |vs| == 0 then []
    else if Canonicalize(vs[0].contact.uri) == canonical then vs[1..]
    else [vs[0]] + RemoveContact(vs[1..], canonical)
  }

  /** Dropping element `k + 1` keeps the head in front of the rest with element `k` dropped. */
  lemma DropAfterHead<T>(s: seq<T>, k: nat)
    requires k + 1 < |s|
    ensures s[..k + 1] + s[k + 2..] == [s[0]] + (s[1..][..k] + s[1..][k + 1..])
  {
    assert s[..k + 1] == [s[0]] + s[1..][..k];
    assert s[k + 2..] == s[1..][k + 1..];
  }

  /** Removal is the list with the binding `Find` locates cut out (`Vector.remove` at that index). */
  lemma {:induction false} RemoveContactAt(vs: seq<BindingValue>, canonical: Uri)
    ensures Find(vs, canonical) == -1 ==> RemoveContact(vs, canonical) == vs
    ensures Find(vs, canonical) != -1 ==>
              RemoveContact(vs, canonical) == vs[..Find(vs, canonical)] + vs[Find(vs, canonical) + 1..]
    decreases |vs|
  {
    if |vs| > 0 && Canonicalize(vs[0].contact.uri) != canonical {
      RemoveContactAt(vs[1..], canonical);
      PastHead(vs, canonical);
    } else if |vs| > 0 {
      assert vs[..0] + vs[1..] == vs[1..];
    }
  }

  /** Past a head of another contact, removal and search both continue in the tail. */
  lemma PastHead(vs: seq<BindingValue>, canonical: Uri)
    requires |vs| > 0 && Canonicalize(vs[0].contact.uri) != canonical
    requires Find(vs[1..], canonical) == -1 ==> RemoveContact(vs[1..], canonical) == vs[1..]
    requires Find(vs[1..], canonical) != -1 ==>
               RemoveContact(vs[1..], canonical) == vs[1..][..Find(vs[1..], canonical)] + vs[1..][Find(vs[1..], canonical) + 1..]
    ensures Find(vs, canonical) == -1 ==> RemoveContact(vs, canonical) == vs
    ensures Find(vs, canonical) != -1 ==>
              RemoveContact(vs, canonical) == vs[..Find(vs, canonical)] + vs[Find(vs, canonical) + 1..]
  {
    var k := Find(vs[1..], canonical);
    if k != -1 {
      DropAfterHead(vs, k);
    } else {
      assert vs == [vs[0]] + vs[1..];
    }
  }

  /** `updateRegistration` on values: the old binding of that contact goes, the new one is appended. */
  function Replace(vs: seq<BindingValue>, v: BindingValue): seq<BindingValue> {
    RemoveContact(vs, Canonicalize(v.contact.uri)) + [v]
  }

  lemma UniqueDropAt(vs: seq<BindingValue>, i: nat)
    requires UniqueContacts(vs) && i < |vs|
    ensures UniqueContacts(vs[..i] + vs[i + 1..])
    ensures forall w :: w in vs[..i] + vs[i + 1..] ==> w in vs && Canonicalize(w.contact.uri) != Canonicalize(vs[i].contact.uri)
  {
    var r := vs[..i] + vs[i + 1..];
    assert forall j :: 0 <= j < |r| ==> r[j] == (if j < i then vs[j] else vs[j + 1]);
  }

  /**
   * On a list without two bindings of one contact, removal takes out exactly
   * the bindings of that contact, keeps every other binding and keeps the
   * list free of duplicates.
   */
  lemma RemoveContactSpec(vs: seq<BindingValue>, canonical: Uri)
    requires UniqueContacts(vs)
    ensures UniqueContacts(RemoveContact(vs, canonical))
    ensures forall w :: w in RemoveContact(vs, canonical) <==> w in vs && Canonicalize(w.contact.uri) != canonical
  {
    RemoveContactAt(vs, canonical);
    var i := Find(vs, canonical);
    if i != -1 {
      UniqueDropAt(vs, i);
      forall w | w in vs && Canonicalize(w.contact.uri) != canonical
        ensures w in vs[..i] + vs[i + 1..]
      {
        var j :| 0 <= j < |vs| && vs[j] == w;
        if j < i { assert w == vs[..i][j]; } else { assert w == vs[i + 1..][j - i - 1]; }
      }
    }
  }

  /**
   * After `updateRegistration` exactly one binding has the new contact: the
   * new one, last in the list; every binding of another contact is still
   * there, and nothing else is.
   */
  lemma ReplaceSpec(vs: seq<BindingValue>, v: BindingValue)
    requires UniqueContacts(vs)
    ensures var r := Replace(vs, v);
            UniqueContacts(r) && r[|r| - 1] == v
            && (forall i :: 0 <= i < |r| - 1 ==> Canonicalize(r[i].contact.uri) != Canonicalize(v.contact.uri))
            && (forall w :: w in r <==> w == v || (w in vs && Canonicalize(w.contact.uri) != Canonicalize(v.contact.uri)))
  {
    var c := Canonicalize(v.contact.uri);
    RemoveContactSpec(vs, c);
    var rest := RemoveContact(vs, c);
    var r := rest + [v];
    assert forall i :: 0 <= i < |r| - 1 ==> r[i] == rest[i] && r[i] in rest;
  }

  /** A binding aged by `dt` seconds: `(int)` of the lowered expiry. */
  function Aged(v: BindingValue, dt: int): (r: BindingValue)
    ensures r.key == v.key && r.callId == v.callId && r.cseq == v.cseq
    ensures r.contact == v.contact.(expires := ToInt32(v.contact.expires - dt))
  {
    v.(contact := v.contact.(expires := ToInt32(v.contact.expires - dt)))
  }

  /** One profile's list after a sweep: every binding aged, the ones no longer positive dropped. */
  function Sweep(vs: seq<BindingValue>, dt: int): (r: seq<BindingValue>)
    ensures |r| <= |vs|
  {
    if |vs| == 0 then []
    else
      var last := Aged(vs[|vs| - 1], dt);
      Sweep(vs[..|vs| - 1], dt) + (if last.contact.expires > 0 then [last] else [])
  }

  /** Every binding that survives a sweep has a positive expiry. */
  lemma {:induction false} SweepPositive(vs: seq<BindingValue>, dt: int)
    ensures forall w :: w in Sweep(vs, dt) ==> w.contact.expires > 0
  {
    if |vs| > 0 {
      SweepPositive(vs[..|vs| - 1], dt);
    }
  }

  /** The sweep works binding by binding: it distributes over concatenation, so survivors keep their order. */
  lemma {:induction false} SweepConcat(a: seq<BindingValue>, b: seq<BindingValue>, dt: int)
    ensures Sweep(a + b, dt) == Sweep(a, dt) + Sweep(b, dt)
    decreases |b|
  {
    if |b| == 0 {
      assert a + b == a;
    } else {
      var b' := b[..|b| - 1];
      assert (a + b)[..|a + b| - 1] == a + b';
      SweepConcat(a, b', dt);
      assert (a + b)[|a + b| - 1] == b[|b| - 1];
    }
  }

  /** A single binding survives exactly when its aged expiry is positive. */
  lemma SweepSingle(v: BindingValue, dt: int)
    ensures Sweep([v], dt) == if ToInt32(v.contact.expires - dt) > 0 then [Aged(v, dt)] else []
  {
    assert [v][..0] == [];
  }

  /** Every survivor is an aged binding of the list, with the same contact. */
  lemma {:induction false} SweepFrom(vs: seq<BindingValue>, dt: int)
    ensures forall w :: w in Sweep(vs, dt) ==> exists i :: 0 <= i < |vs| && w == Aged(vs[i], dt)
  {
    if |vs| > 0 {
      var init := vs[..|vs| - 1];
      SweepFrom(init, dt);
      forall w | w in Sweep(vs, dt)
        ensures exists i :: 0 <= i < |vs| && w == Aged(vs[i], dt)
      {
        if w in Sweep(init, dt) {
          var i :| 0 <= i < |init| && w == Aged(init[i], dt);
          assert w == Aged(vs[i], dt);
        } else {
          assert w == Aged(vs[|vs| - 1], dt);
        }
      }
    }
  }

  /** The sweep keeps a list free of two bindings of one contact. */
  lemma {:induction false} SweepUnique(vs: seq<BindingValue>, dt: int)
    requires UniqueContacts(vs)
    ensures UniqueContacts(Sweep(vs, dt))
  {
    if |vs| > 0 {
      var init := vs[..|vs| - 1];
      var last := Aged(vs[|vs| - 1], dt);
      assert UniqueContacts(init);
      SweepUnique(init, dt);
      SweepFrom(init, dt);
      var s := Sweep(init, dt);
      if last.contact.expires > 0 {
        forall j | 0 <= j < |s|
          ensures Canonicalize(s[j].contact.uri) != Canonicalize(last.contact.uri)
        {
          assert s[j] in s;
          var i :| 0 <= i < |init| && s[j] == Aged(init[i], dt);
          assert init[i] == vs[i];
        }
        var r := s + [last];
        assert forall j :: 0 <= j < |s| ==> r[j] == s[j];
      }
    }
  }

  /** A sweep after no elapsed second keeps every binding whose expiry is a positive 32-bit value. */
  lemma {:induction false} SweepNoTime(vs: seq<BindingValue>)
    requires forall i :: 0 <= i < |vs| ==> 0 < vs[i].contact.expires <= INT32_MAX
    ensures Sweep(vs, 0) == vs
  {
    if |vs| > 0 {
      SweepNoTime(vs[..|vs| - 1]);
      assert vs[..|vs| - 1] + [vs[|vs| - 1]] == vs;
    }
  }

  /**
   * The loop's step on values: with the first `k` bindings swept, binding
   * `k` comes next in the list, and sweeping `k + 1` bindings adds it,
   * aged, when its aged expiry is positive.
   */
  lemma SweepStep(before: seq<BindingValue>, k: nat, dt: int, current: seq<BindingValue>)
    requires k < |before| && current == Sweep(before[..k], dt) + before[k..]
    ensures current == Sweep(before[..k], dt) + [before[k]] + before[k + 1..]
    ensures Sweep(before[..k + 1], dt)
            == Sweep(before[..k], dt) + (if Aged(before[k], dt).contact.expires > 0 then [Aged(before[k], dt)] else [])
  {
    var pre, b := before[..k], before[k];
    SweepExtend(pre, b, dt);
    assert before[..k + 1] == pre + [b];
    assert before[k..] == [b] + before[k + 1..];
  }

  /** Sweeping one more binding at the end. */
  lemma SweepExtend(pre: seq<BindingValue>, b: BindingValue, dt: int)
    ensures Sweep(pre + [b], dt) == Sweep(pre, dt) + (if Aged(b, dt).contact.expires > 0 then [Aged(b, dt)] else [])
  {
    assert (pre + [b])[..|pre|] == pre;
  }

  /** Replacing, or dropping, the element between a prefix and a suffix. */
  lemma ListStep<T>(front: seq<T>, b: T, back: seq<T>, c: T)
    ensures (front + [b] + back)[|front|] == b
    ensures (front + [b] + back)[|front| := c] == front + [c] + back
    ensures var r := (front + [b] + back)[|front| := c]; r[..|front|] + r[|front| + 1..] == front + back
  {
    var r := (front + [b] + back)[|front| := c];
    assert r[..|front|] == front && r[|front| + 1..] == back;
  }

  /** When every binding has been visited, the swept prefix is the whole sweep. */
  lemma SweepWhole(before: seq<BindingValue>, k: nat, dt: int)
    requires k == |before|
    ensures Sweep(before[..k], dt) + before[k..] == Sweep(before, dt)
  {
    assert before[..k] == before;
  }

  /**
   * One visit of the sweep's inner loop: binding `i`, the `k`-th of the
   * bindings the sweep started from, gets its expiry lowered by `dt` in
   * its header, and is removed when that is no longer positive.
   */
  method VisitBinding(profile: UserProfile, i: nat, dt: int, ghost before: seq<BindingValue>, ghost k: nat) returns (kept: bool)
    requires k < |before| && |Sweep(before[..k], dt)| == i
    requires profile.bindings == Sweep(before[..k], dt) + before[k..]
    modifies profile`bindings
    ensures |Sweep(before[..k + 1], dt)| == if kept then i + 1 else i
    ensures profile.bindings == Sweep(before[..k + 1], dt) + before[k + 1..]
  {
    ghost var swept, rest := Sweep(before[..k], dt), before[k + 1..];
    SweepStep(before, k, dt, profile.bindings);
    var binding := Aged(profile.bindings[i], dt);
    ListStep(swept, before[k], rest, binding);
    profile.bindings := profile.bindings[i := binding];
    kept := binding.contact.expires > 0;
    if !kept {
      SweepPositive(before[..k], dt);
      DropExpired(profile, binding, swept, rest);
    }
  }

  /**
   * An expired binding goes: the bindings before it survived, so their
   * expiry is positive and none of them is this one.
   */
  method DropExpired(profile: UserProfile, binding: BindingValue, ghost swept: seq<BindingValue>, ghost rest: seq<BindingValue>)
    requires profile.bindings == swept + [binding] + rest && binding.contact.expires <= 0
    requires forall w :: w in swept ==> w.contact.expires > 0
    modifies profile`bindings
    ensures profile.bindings == swept + rest
  {
    ghost var i := |swept|;
    assert profile.bindings[i] == binding;
    assert forall j :: 0 <= j < i ==> profile.bindings[j] == swept[j];
    RemoveFirstAt(profile.bindings, i);
    assert profile.bindings[..i] == swept && profile.bindings[i + 1..] == rest;
    profile.RemoveBinding(binding);
  }

  /**
   * The sweep of one profile, the inner loop of `CheckBindingsTask.run`:
   * each binding's expiry is lowered by `dt` in its header, and a binding
   * whose expiry is then no longer positive is removed, the index stepping
   * back so that the binding moved into its place is visited next.
   */
  method ExpireBindings(profile: UserProfile, dt: int)
    modifies profile`bindings
    ensures profile.bindings == Sweep(old(profile.bindings), dt)
  {
    ghost var before := profile.bindings;
    var i := 0;
    ghost var k := 0;
    assert before[..0] == [] && before[0..] == before;
    while i < |profile.bindings|
      invariant i <= k <= |before| && |Sweep(before[..k], dt)| == i
      invariant profile.bindings == Sweep(before[..k], dt) + before[k..]
      decreases |before| - k
    {
      var kept := VisitBinding(profile, i, dt, before, k);
      if kept {
        i := i + 1;
      }
      k := k + 1;
    }
    SweepWhole(before, k, dt);
  }

  /** What `updateRegistration` records: the given Contact header, its expiry set to `(int) expires`. */
  function Registered(key: string, contact: ContactValue, expires: int, callId: string, cseq: int): (v: BindingValue)
    ensures v.contact == contact.(expires := ToInt32(expires))
    ensures v.key == key && v.callId == callId && v.cseq == cseq
  {
    BindingValue(key, contact.(expires := ToInt32(expires)), callId, cseq)
  }

  /**
   * The body of `removeBinding` and the first half of `updateRegistration`
   * on one profile: the binding of that contact, if there is one, is found
   * and removed.
   */
  method ForgetContact(profile: UserProfile, contact: Uri)
    modifies profile`bindings
    ensures profile.bindings == RemoveContact(old(profile.bindings), Canonicalize(contact))
  {
    ghost var before := profile.bindings;
    var existing := profile.GetBinding(contact);
    if existing.Some? {
      ghost var i := Find(before, Canonicalize(contact));
      // the bindings before it have other contacts, so none of them equals it
      assert forall j :: 0 <= j < i ==> before[j] != before[i];
      RemoveFirstAt(before, i);
      profile.RemoveBinding(existing.value);
    }
    RemoveContactAt(before, Canonicalize(contact));
  }

  /**
   * `updateRegistration` on one profile: the binding of that contact goes,
   * and the new binding is appended (it is a new object, so `addBinding`
   * never finds it already listed).
   */
  method ReplaceBinding(profile: UserProfile, key: string, contact: ContactValue, expires: int, callId: string, cseq: int)
    requires UniqueContacts(profile.bindings)
    modifies profile`bindings
    ensures profile.bindings == Replace(old(profile.bindings), Registered(key, contact, expires, callId, cseq))
  {
    ghost var before := profile.bindings;
    ForgetContact(profile, contact.uri);
    var binding := Registered(key, contact, expires, callId, cseq);
    RemoveContactSpec(before, Canonicalize(contact.uri));
    profile.AddBinding(binding);
    ReplaceSpec(before, binding);
  }

  /** No subscriber has two bindings of one canonical contact. */
  predicate AllUnique(snapshot: map<string, seq<BindingValue>>) {
    forall k :: k in snapshot ==> UniqueContacts(snapshot[k])
  }

  /** `updateRegistration` keeps every subscriber's contacts unique. */
  lemma UniqueAfterReplace(snapshot: map<string, seq<BindingValue>>, key: string, v: BindingValue)
    requires AllUnique(snapshot) && key in snapshot
    ensures AllUnique(snapshot[key := Replace(snapshot[key], v)])
  {
    ReplaceSpec(snapshot[key], v);
  }

  /** `removeBinding` keeps every subscriber's contacts unique. */
  lemma UniqueAfterRemove(snapshot: map<string, seq<BindingValue>>, key: string, canonical: Uri)
    requires AllUnique(snapshot) && key in snapshot
    ensures AllUnique(snapshot[key := RemoveContact(snapshot[key], canonical)])
  {
    RemoveContactSpec(snapshot[key], canonical);
  }

  /** The sweep keeps every subscriber's contacts unique. */
  lemma UniqueAfterSweep(snapshot: map<string, seq<BindingValue>>, dt: int)
    requires AllUnique(snapshot)
    ensures AllUnique(SweepAll(snapshot, dt))
  {
    forall k | k in snapshot
      ensures UniqueContacts(SweepAll(snapshot, dt)[k])
    {
      SweepUnique(snapshot[k], dt);
    }
  }

  /** Every subscriber's list after a sweep by `dt` seconds. */
  function SweepAll(snapshot: map<string, seq<BindingValue>>, dt: int): (r: map<string, seq<BindingValue>>)
    ensures r.Keys == snapshot.Keys && forall k :: k in snapshot ==> r[k] == Sweep(snapshot[k], dt)
  {
    map k | k in snapshot :: Sweep(snapshot[k], dt)
  }

  /** The number of bindings of all the profiles of a table. */
  ghost function TotalBindings(snapshot: map<string, seq<BindingValue>>): (r: nat)
    decreases |snapshot|
  {
    if |snapshot| == 0 then 0
    else
      var k := Pick(snapshot.Keys);
      |snapshot[k]| + TotalBindings(snapshot - {k})
  }

  /** Some element of a non-empty set. */
  ghost function Pick(keys: set<string>): (k: string)
    requires keys != {}
    ensures k in keys
  {
    var k :| k in keys; k
  }

  /** The total does not depend on which subscriber is counted first. */
  lemma {:induction false} TotalRemove(snapshot: map<string, seq<BindingValue>>, key: string)
    requires key in snapshot
    ensures TotalBindings(snapshot) == |snapshot[key]| + TotalBindings(snapshot - {key})
    decreases |snapshot|
  {
    var k := Pick(snapshot.Keys);
    if k != key {
      var both := snapshot - {k} - {key};
      assert snapshot - {key} - {k} == both;
      assert |snapshot - {k}| == |snapshot| - 1 && |snapshot - {key}| == |snapshot| - 1;
      TotalRemove(snapshot - {k}, key);
      TotalRemove(snapshot - {key}, k);
      assert TotalBindings(snapshot - {k}) == |snapshot[key]| + TotalBindings(both);
      assert TotalBindings(snapshot - {key}) == |snapshot[k]| + TotalBindings(both);
    }
  }

  /** Counting one more subscriber adds its bindings to the total. */
  lemma TotalAdd(snapshot: map<string, seq<BindingValue>>, keys: set<string>, key: string)
    requires keys <= snapshot.Keys && key in snapshot && key !in keys
    ensures TotalBindings(Restrict(snapshot, keys + {key})) == TotalBindings(Restrict(snapshot, keys)) + |snapshot[key]|
  {
    TotalRemove(Restrict(snapshot, keys + {key}), key);
    assert Restrict(snapshot, keys + {key}) - {key} == Restrict(snapshot, keys);
  }

  /** The subscribers of `keys` only. */
  function Restrict(snapshot: map<string, seq<BindingValue>>, keys: set<string>): (r: map<string, seq<BindingValue>>)
    ensures r.Keys == snapshot.Keys * keys && forall k :: k in r ==> r[k] == snapshot[k]
  {
    map k | k in snapshot && k in keys :: snapshot[k]
  }

  /** The subscriber gauge is the first row of the service's SNMP table, the bindings gauge the second. */
  lemma GaugeRows()
    ensures FirstIndex([SNMP_OID_NUM_SUBSCRIBERS, SNMP_OID_NUM_BINDINGS], SNMP_OID_NUM_SUBSCRIBERS) == 0
    ensures FirstIndex([SNMP_OID_NUM_SUBSCRIBERS, SNMP_OID_NUM_BINDINGS], SNMP_OID_NUM_BINDINGS) == 1
  {
    assert SNMP_OID_NUM_SUBSCRIBERS[|SNMP_OID_NUM_SUBSCRIBERS| - 1] != SNMP_OID_NUM_BINDINGS[|SNMP_OID_NUM_BINDINGS| - 1];
  }

  /** The SNMP value array, when there is a table. */
  ghost function SnmpObjects(a: SNMPAssistant?): (r: set<object>)
    ensures a != null ==> r == {a.values}
    ensures a == null ==> r == {}
  {
    if a != null then {a.values} else {}
  }

  // ---------------------------------------------------------------------
  // The service

  class LocationService {
    const defaultDomain: string
    var database: map<string, UserProfile>
    var domains: set<string>
    const snmpAssistant: SNMPAssistant?
    /** When the previous sweep ran, in milliseconds. */
    var prevCheckTime: int
    /** Whether the timer still runs the sweep (an exception in a timer task ends the timer). */
    var sweeping: bool

    /** The profile objects, the only objects the registration operations and the sweep change. */
    ghost var Profiles: set<UserProfile>
    /** Which key each profile is stored under. */
    ghost var keyOf: map<UserProfile, string>

    /** Every stored profile is one of the profile objects. */
    ghost predicate Stored()
      reads this`database, this`Profiles
    {
      forall k :: k in database ==> database[k] in Profiles
    }

    /**
     * Each key has a profile of its own (no profile is under two keys),
     * and every profile is valid.
     */
    ghost predicate ProfilesValid()
      reads this`database, this`Profiles, this`keyOf
    {
      Stored()
      && forall k :: k in database ==>
           database[k] in keyOf && keyOf[database[k]] == k && database[k].Valid()
    }

    /** The SNMP table, when there is one, holds the subscriber gauge and then the bindings gauge. */
    ghost predicate TableValid() {
      snmpAssistant != null ==>
        snmpAssistant.Valid() && snmpAssistant.oids == [SNMP_OID_NUM_SUBSCRIBERS, SNMP_OID_NUM_BINDINGS]
    }

    ghost predicate Valid()
      reads this`database, this`Profiles, this`keyOf
    {
      ProfilesValid() && TableValid()
    }

    /** Every subscriber's bindings. */
    ghost function Snapshot(): (r: map<string, seq<BindingValue>>)
      requires Stored()
      reads this`database, this`Profiles, Profiles`bindings
      ensures r.Keys == database.Keys
      ensures forall k :: k in database ==> r[k] == database[k].bindings
    {
      map k | k in database :: database[k].bindings
    }

    /** A table of fresh, empty profiles, with its inverse, makes a valid service without bindings. */
    lemma FreshValid()
      requires FreshTable(database) && Profiles == database.Values && Inverts(database, keyOf) && TableValid()
      ensures Valid() && forall k :: k in database ==> Snapshot()[k] == []
    {
    }

    /** Every subscriber's address of record. */
    ghost function Aors(): (r: map<string, Uri>)
      reads this`database
      ensures r.Keys == database.Keys
    {
      map k | k in database :: database[k].addressOfRecord
    }

    /** The SNMP gauges, the subscriber and binding counts; nothing without an SNMP table. */
    ghost function Gauges(): seq<int>
      reads SnmpObjects(snmpAssistant)
    {
      if snmpAssistant != null then snmpAssistant.values[..] else []
    }

    /**
     * The constructor: the configuration is read, the user database is
     * provisioned, and the service keeps an SNMP table only when the SNMP
     * agent is enabled (`snmp.agent.enabled`); otherwise its assistant is
     * null. (The table object is allocated either way and dropped when the
     * agent is off, which no later state can observe.)
     */
    constructor (props: map<string, string>, db: map<string, string>, createUri: string -> Option<Uri>, now: int)
      ensures Valid()
      ensures defaultDomain == DefaultDomainOf(props)
      ensures Holds(database, domains, Provisioned(db, defaultDomain, createUri, MaxUsers(db)))
      ensures forall k :: k in database ==> Snapshot()[k] == []
      ensures snmpAssistant == null <==> !SnmpEnabled(props)
      ensures snmpAssistant != null ==> snmpAssistant.communityName == CommunityName(props) && Gauges() == [0, 0]
      ensures prevCheckTime == now && sweeping
      ensures fresh(Profiles) && fresh(SnmpObjects(snmpAssistant))
    {
      var table := new SNMPAssistant(CommunityName(props), [SNMP_OID_NUM_SUBSCRIBERS, SNMP_OID_NUM_BINDINGS], [0, 0]);
      defaultDomain, snmpAssistant := DefaultDomainOf(props), if SnmpEnabled(props) then table else null;
      EntriesNormal(db, DefaultDomainOf(props), createUri);
      var profiles, served, inverse := ProvisionTable(Entries(db, DefaultDomainOf(props), createUri), MaxUsers(db));
      database, domains, Profiles, keyOf := profiles, served, profiles.Values, inverse;
      prevCheckTime, sweeping := now, true;
    }

    /**
     * The constructor as the rest of the service needs it: the SNMP table is
     * created whether or not its agent is enabled, so the sweep task always
     * finds it.
     */
    constructor WithTable(props: map<string, string>, db: map<string, string>, createUri: string -> Option<Uri>, now: int)
      ensures Valid()
      ensures defaultDomain == DefaultDomainOf(props)
      ensures Holds(database, domains, Provisioned(db, defaultDomain, createUri, MaxUsers(db)))
      ensures forall k :: k in database ==> Snapshot()[k] == []
      ensures snmpAssistant != null && snmpAssistant.communityName == CommunityName(props)
      ensures Gauges() == [0, 0]
      ensures prevCheckTime == now && sweeping
      ensures fresh(Profiles) && fresh(SnmpObjects(snmpAssistant))
    {
      var assistant := new SNMPAssistant(CommunityName(props), [SNMP_OID_NUM_SUBSCRIBERS, SNMP_OID_NUM_BINDINGS], [0, 0]);
      defaultDomain, snmpAssistant := DefaultDomainOf(props), assistant;
      EntriesNormal(db, DefaultDomainOf(props), createUri);
      var profiles, served, inverse := ProvisionTable(Entries(db, DefaultDomainOf(props), createUri), MaxUsers(db));
      database, domains, Profiles, keyOf := profiles, served, profiles.Values, inverse;
      prevCheckTime, sweeping := now, true;
    }

    /** `getProfile`: the profile of a key, or UserNotFoundException. */
    function GetProfile(key: string): (r: Lookup<UserProfile>)
      reads this`database
      ensures r.UserNotFound? <==> key !in database
      ensures r.Found? ==> r.value == database[key]
    {
      if key in database then Found(database[key]) else UserNotFound
    }

    /** `getUsername`: the user part of the subscriber's address of record. */
    function GetUsername(key: string): (r: Lookup<Option<string>>)
      requires Valid()
      reads this`database, this`Profiles, this`keyOf
      ensures r.UserNotFound? <==> key !in Aors()
      ensures r.Found? ==> r.value == Aors()[key].user
    {
      match GetProfile(key)
      case UserNotFound => UserNotFound
      case Found(profile) => Found(profile.GetLogin())
    }

    /** `getPassword`: the password of the subscriber's address of record, null when none was provisioned. */
    function GetPassword(key: string): (r: Lookup<Option<string>>)
      requires Valid()
      reads this`database, this`Profiles, this`keyOf
      ensures r.UserNotFound? <==> key !in Aors()
      ensures r.Found? ==> r.value == Aors()[key].password
    {
      match GetProfile(key)
      case UserNotFound => UserNotFound
      case Found(profile) => Found(profile.GetPassword())
    }

    /**
     * `updateRegistration`: the subscriber's binding of that contact, if
     * any, is replaced by a new one at the end of the list; UserNotFound
     * and no change for an unknown key.
     */
    method UpdateRegistration(key: string, contact: ContactValue, expires: int, callId: string, cseq: int) returns (r: Lookup<()>)
      requires Valid() && AllUnique(Snapshot())
      modifies Profiles`bindings
      ensures Valid() && AllUnique(Snapshot())
      ensures r.UserNotFound? <==> key !in database
      ensures Snapshot() == if key in database
                            then old(Snapshot())[key := Replace(old(Snapshot())[key], Registered(key, contact, expires, callId, cseq))]
                            else old(Snapshot())
    {
      var found := GetProfile(key);
      if found.UserNotFound? {
        return UserNotFound;
      }
      ghost var before := Snapshot();
      var profile := found.value;
      ReplaceBinding(profile, key, contact, expires, callId, cseq);
      assert Snapshot() == before[key := profile.bindings];
      UniqueAfterReplace(before, key, Registered(key, contact, expires, callId, cseq));
      r := Found(());
    }

    /** `removeBinding`: the subscriber's binding of that contact goes, if there is one. */
    method RemoveBinding(key: string, contact: ContactValue) returns (r: Lookup<()>)
      requires Valid()
      modifies Profiles`bindings
      ensures Valid() && (AllUnique(old(Snapshot())) ==> AllUnique(Snapshot()))
      ensures r.UserNotFound? <==> key !in database
      ensures Snapshot() == if key in database
                            then old(Snapshot())[key := RemoveContact(old(Snapshot())[key], Canonicalize(contact.uri))]
                            else old(Snapshot())
    {
      var found := GetProfile(key);
      if found.UserNotFound? {
        return UserNotFound;
      }
      ghost var before := Snapshot();
      ForgetContact(found.value, contact.uri);
      assert Snapshot() == before[key := found.value.bindings];
      if AllUnique(before) {
        UniqueAfterRemove(before, key, Canonicalize(contact.uri));
      }
      r := Found(());
    }

    /** `removeAllBindings`: the subscriber is left without bindings. */
    method RemoveAllBindings(key: string) returns (r: Lookup<()>)
      requires Valid()
      modifies Profiles`bindings
      ensures Valid() && (AllUnique(old(Snapshot())) ==> AllUnique(Snapshot()))
      ensures r.UserNotFound? <==> key !in database
      ensures Snapshot() == if key in database then old(Snapshot())[key := []] else old(Snapshot())
    {
      var found := GetProfile(key);
      if found.UserNotFound? {
        return UserNotFound;
      }
      found.value.RemoveAllBindings();
      r := Found(());
    }

    /** `getContactHeaders`: the subscriber's Contact headers, in the order of its bindings. */
    method GetContactHeaders(key: string) returns (r: Lookup<seq<ContactValue>>)
      requires Valid()
      ensures r.UserNotFound? <==> key !in database
      ensures r.Found? ==> r.value == Contacts(Snapshot()[key])
    {
      var found := GetProfile(key);
      if found.UserNotFound? {
        return UserNotFound;
      }
      var contacts := found.value.GetContactHeaders();
      r := Found(contacts);
    }

    /** `getBinding`: the subscriber's binding of that contact, null when there is none. */
    method GetBinding(key: string, contact: ContactValue) returns (r: Lookup<Option<BindingValue>>)
      requires Valid()
      ensures r.UserNotFound? <==> key !in database
      ensures r.Found? ==> (r.value.None? <==> Find(Snapshot()[key], Canonicalize(contact.uri)) == -1)
      ensures r.Found? && r.value.Some? ==> r.value.value == Snapshot()[key][Find(Snapshot()[key], Canonicalize(contact.uri))]
    {
      var found := GetProfile(key);
      if found.UserNotFound? {
        return UserNotFound;
      }
      var binding := found.value.GetBinding(contact.uri);
      r := Found(binding);
    }

    /**
     * `CheckBindingsTask.run`, one firing of the timer: the whole seconds
     * since the previous sweep are computed from the clock reading `now`,
     * the previous sweep time is reset to the second reading `later`, every
     * profile is swept, and the SNMP gauges get the number of profiles and
     * the number of bindings counted before the sweep. Without an SNMP
     * table the task throws after the sweep and the timer stops. Once the
     * timer has stopped nothing happens.
     */
    method CheckBindings(now: int, later: int)
      requires Valid()
      modifies this`prevCheckTime, this`sweeping, Profiles`bindings, SnmpObjects(snmpAssistant)
      ensures Valid()
      ensures !old(sweeping) ==>
                !sweeping && prevCheckTime == old(prevCheckTime) && Snapshot() == old(Snapshot()) && Gauges() == old(Gauges())
      ensures old(sweeping) ==>
                prevCheckTime == later && Snapshot() == SweepAll(old(Snapshot()), JavaDiv(now - old(prevCheckTime), 1000))
      ensures old(sweeping) ==> (sweeping <==> snmpAssistant != null)
      ensures old(sweeping) && snmpAssistant != null ==> Gauges() == [|database|, TotalBindings(old(Snapshot()))]
    {
      if sweeping {
        Fire(now, later);
      }
    }

    /** A firing while the timer runs. */
    method Fire(now: int, later: int)
      requires Valid() && sweeping
      modifies this`prevCheckTime, this`sweeping, Profiles`bindings, SnmpObjects(snmpAssistant)
      ensures Valid()
      ensures prevCheckTime == later && Snapshot() == SweepAll(old(Snapshot()), JavaDiv(now - old(prevCheckTime), 1000))
      ensures sweeping <==> snmpAssistant != null
      ensures snmpAssistant != null ==> Gauges() == [|database|, TotalBindings(old(Snapshot()))]
    {
      var dt := JavaDiv(now - prevCheckTime, 1000);
      ghost var before := Snapshot();
      // Without an SNMP table, getSnmpInteger on the null assistant throws after the sweep and the
      // timer's thread ends; the flag is written before the sweep here, which does not read it.
      prevCheckTime, sweeping := later, snmpAssistant != null;
      assert Snapshot() == before;
      RunTask(dt);
    }

    /** The sweep and the gauges of one firing; without an SNMP table the gauges are not reached. */
    method RunTask(dt: int)
      requires Valid()
      modifies Profiles`bindings, SnmpObjects(snmpAssistant)
      ensures Valid()
      ensures Snapshot() == SweepAll(old(Snapshot()), dt)
      ensures snmpAssistant != null ==> Gauges() == [|database|, TotalBindings(old(Snapshot()))]
    {
      var numProfiles, numBindings := SweepProfiles(dt);
      if snmpAssistant != null {
        SetGauges(numProfiles, numBindings);
      }
    }

    /** The two `setValue` calls at the end of the task: the gauges take the counts. */
    method SetGauges(numProfiles: int, numBindings: int)
      requires Valid() && snmpAssistant != null
      modifies snmpAssistant.values
      ensures Valid() && Gauges() == [numProfiles, numBindings]
      ensures Snapshot() == old(Snapshot())
    {
      GaugeRows();
      snmpAssistant.SetSnmpInteger(SNMP_OID_NUM_SUBSCRIBERS, numProfiles);
      snmpAssistant.SetSnmpInteger(SNMP_OID_NUM_BINDINGS, numBindings);
    }

    /**
     * The loop over the profiles: each is counted, its bindings are
     * counted, and then it is swept. The enumeration order of the table is
     * not fixed.
     */
    method SweepProfiles(dt: int) returns (numProfiles: int, numBindings: int)
      requires Valid()
      modifies Profiles`bindings
      ensures Valid()
      ensures Snapshot() == SweepAll(old(Snapshot()), dt)
      ensures numProfiles == |database| && numBindings == TotalBindings(old(Snapshot()))
    {
      ghost var before := Snapshot();
      var remaining := database.Keys;
      ghost var done: set<string> := {};
      numProfiles, numBindings := 0, 0;
      while remaining != {}
        invariant Valid()
        invariant Progress(before, dt, done, remaining, Snapshot(), numProfiles, numBindings)
        decreases |remaining|
      {
        var key :| key in remaining;
        numProfiles, numBindings := CountAndSweep(key, dt, before, done, remaining, numProfiles, numBindings);
        remaining, done := remaining - {key}, done + {key};
      }
      ProgressDone(before, dt, done, Snapshot(), numProfiles, numBindings);
    }

    /** The body of the loop over the profiles: one more profile counted, its bindings counted, and then swept. */
    method CountAndSweep(key: string, dt: int, ghost before: map<string, seq<BindingValue>>, ghost done: set<string>,
                         ghost remaining: set<string>, numProfiles: int, numBindings: int)
        returns (numProfiles': int, numBindings': int)
      requires Valid() && key in remaining
      requires Progress(before, dt, done, remaining, Snapshot(), numProfiles, numBindings)
      modifies Profiles`bindings
      ensures Valid() && |remaining - {key}| < |remaining|
      ensures Progress(before, dt, done + {key}, remaining - {key}, Snapshot(), numProfiles', numBindings')
    {
      ProgressStep(before, dt, done, remaining, Snapshot(), numProfiles, numBindings, key);
      var count := SweepProfile(key, dt);
      numProfiles', numBindings' := numProfiles + 1, numBindings + count;
    }

    /** One iteration of the loop over the profiles: the bindings of `key` are counted, then swept. */
    method SweepProfile(key: string, dt: int) returns (count: int)
      requires Valid() && key in database
      modifies Profiles`bindings
      ensures Valid()
      ensures count == |old(Snapshot())[key]|
      ensures Snapshot() == old(Snapshot())[key := Sweep(old(Snapshot())[key], dt)]
    {
      var profile := database[key];
      count := |profile.bindings|;
      ExpireBindings(profile, dt);
    }
  }

  /**
   * The loop over the profiles part way through: the keys `done` have been
   * counted and swept, the keys `remaining` not yet, and the two make up
   * the table.
   */
  ghost predicate Progress(before: map<string, seq<BindingValue>>, dt: int, done: set<string>, remaining: set<string>,
                           now: map<string, seq<BindingValue>>, numProfiles: int, numBindings: int)
  {
    done !! remaining && done + remaining == before.Keys
    && numProfiles == |done| && numBindings == TotalBindings(Restrict(before, done))
    && now == PartlySwept(before, remaining, dt)
  }

  /** Counting and sweeping one more subscriber. */
  lemma ProgressStep(before: map<string, seq<BindingValue>>, dt: int, done: set<string>, remaining: set<string>,
                     now: map<string, seq<BindingValue>>, numProfiles: int, numBindings: int, key: string)
    requires Progress(before, dt, done, remaining, now, numProfiles, numBindings) && key in remaining
    ensures key in now && |remaining - {key}| < |remaining|
    ensures Progress(before, dt, done + {key}, remaining - {key}, now[key := Sweep(now[key], dt)],
                     numProfiles + 1, numBindings + |now[key]|)
  {
    TotalAdd(before, done, key);
    PartlySweptStep(before, remaining, key, dt);
    MoveKey(before.Keys, done, remaining, key);
  }

  /** With nothing remaining, every subscriber has been counted and swept. */
  lemma ProgressDone(before: map<string, seq<BindingValue>>, dt: int, done: set<string>,
                     now: map<string, seq<BindingValue>>, numProfiles: int, numBindings: int)
    requires Progress(before, dt, done, {}, now, numProfiles, numBindings)
    ensures now == SweepAll(before, dt) && numProfiles == |before| && numBindings == TotalBindings(before)
  {
    assert Restrict(before, done) == before;
  }

  /** Moving a key from the remaining ones to the done ones keeps the two a partition of the table's keys. */
  lemma MoveKey(keys: set<string>, done: set<string>, remaining: set<string>, key: string)
    requires done !! remaining && done + remaining == keys && key in remaining
    ensures (done + {key}) !! (remaining - {key}) && (done + {key}) + (remaining - {key}) == keys
    ensures |done + {key}| == |done| + 1 && |remaining - {key}| == |remaining| - 1
  {
  }

  /** Sweeping one more subscriber. */
  lemma PartlySweptStep(snapshot: map<string, seq<BindingValue>>, remaining: set<string>, key: string, dt: int)
    requires key in snapshot
    ensures PartlySwept(snapshot, remaining, dt)[key := Sweep(snapshot[key], dt)] == PartlySwept(snapshot, remaining - {key}, dt)
  {
  }

  /** A table part way through the sweep: the subscribers in `remaining` are not swept yet, the others are. */
  function PartlySwept(snapshot: map<string, seq<BindingValue>>, remaining: set<string>, dt: int): (r: map<string, seq<BindingValue>>)
    ensures r.Keys == snapshot.Keys
    ensures forall k :: k in snapshot ==> r[k] == if k in remaining then snapshot[k] else Sweep(snapshot[k], dt)
  {
    map k | k in snapshot :: if k in remaining then snapshot[k] else Sweep(snapshot[k], dt)
  }

  /**
   * As written, with the SNMP agent disabled: the service has no SNMP
   * table, so its first sweep throws and the timer never sweeps again.
   */
  method FirstSweepAsWritten(props: map<string, string>, db: map<string, string>, createUri: string -> Option<Uri>,
                             now: int, later: int) returns (service: LocationService)
    requires !SnmpEnabled(props)
    ensures !service.sweeping
  {
    service := new LocationService(props, db, createUri, now);
    service.CheckBindings(later, later);
  }

  /** With the table always created, the sweep runs on after its first firing, whatever the configuration. */
  method FirstSweep(props: map<string, string>, db: map<string, string>, createUri: string -> Option<Uri>,
                    now: int, later: int) returns (service: LocationService)
    ensures service.sweeping
  {
    service := new LocationService.WithTable(props, db, createUri, now);
    service.CheckBindings(later, later);
  }
}
