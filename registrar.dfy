/**
 * Registrar: the REGISTER procedure of RFC 3261 section 10.3 on top of the
 * location service.
 *
 * A REGISTER first goes through a chain of checks, each of which ends the
 * request with an error reply: the Request-URI, the served domain,
 * Proxy-Require, the location service, authentication, the address of
 * record. Then the Contact headers are processed one at a time, each one
 * changing the store before the next is looked at, and the reply lists the
 * subscriber's bindings. Replies are built from the request as received;
 * when the Request-URI names one of the registrar's own interfaces, a copy
 * with the default domain in place of that host is used for the checks, the
 * authentication and the store key.
 *
 * The clock is a parameter; SNMP counters, logging and the RMI transport
 * are not modelled.
 */
module Registrars {
  import opened Common
  import opened Sip
  import opened SipUtils
  import opened UserProfiles
  import opened Bindings
  import opened LocationServices
  import opened Digest

  // ---------------------------------------------------------------------
  // The expiry window

  /** The interval registrations are clamped into, in seconds. */
  datatype Window = Window(min: int, max: int)

  /** A window as the configuration should yield it: at least 5 s, at least 5 s wide, 32-bit. */
  predicate WellFormed(w: Window) {
    5 <= w.min && w.min + 5 <= w.max && IsInt32(w.min) && IsInt32(w.max)
  }

  /**
   * The window as the constructor computes it in Java `int` arithmetic:
   * MIN = max(5, min), MAX = max(MIN + 5, max), where MIN + 5 wraps around
   * when MIN is within 5 of the largest `int`.
   */
  function ExpiryWindowAsWritten(timeMin: int, timeMax: int): (w: Window)
    ensures w.min == Max(5, timeMin)
    ensures w.max >= timeMax
  {
    var min := Max(5, timeMin);
    Window(min, Max(ToInt32(min + 5), timeMax))
  }

  /**
   * The window with the overflow removed: the configured minimum is first
   * capped so that MIN + 5 still fits 32 bits. For every configuration whose
   * minimum is not within 5 of the largest `int` this is the window as written.
   */
  function ExpiryWindow(timeMin: int, timeMax: int): (w: Window)
    requires IsInt32(timeMin) && IsInt32(timeMax)
    ensures WellFormed(w)
    ensures timeMin <= INT32_MAX - 5 ==> w == ExpiryWindowAsWritten(timeMin, timeMax)
  {
    var min := Max(5, Min(timeMin, INT32_MAX - 5));
    Window(min, Max(min + 5, timeMax))
  }

  /** A configured minimum of 2147483647 gives a maximum below the minimum: 3600 with the default maximum. */
  lemma WindowOverflows()
    ensures ExpiryWindowAsWritten(INT32_MAX, 3600) == Window(INT32_MAX, 3600)
    ensures !WellFormed(ExpiryWindowAsWritten(INT32_MAX, 3600))
  {
  }

  /** With that window every non-zero expiry is clamped to 3600 seconds, below the configured minimum. */
  lemma OverflowedWindowClamps(e: int)
    requires e != 0
    ensures Clamp(e, ExpiryWindowAsWritten(INT32_MAX, 3600)) == 3600 < INT32_MAX
  {
    WindowOverflows();
  }

  /**
   * `registrar.binding.expire.time.min` and `.max`, 60 and 3600 s by default,
   * combined as the constructor does, overflow included. Unless the minimum
   * is configured within 5 of the largest `int` the window is well formed and
   * equal to the corrected `ExpiryWindow`.
   */
  function WindowOf(props: map<string, string>): (w: Window)
    ensures var timeMin := IntSetting(props, "registrar.binding.expire.time.min", 60);
            var timeMax := IntSetting(props, "registrar.binding.expire.time.max", 3600);
            w.min == Max(5, timeMin) && w.max >= timeMax &&
            (timeMin <= INT32_MAX - 5 ==> WellFormed(w) && w == ExpiryWindow(timeMin, timeMax))
  {
    ExpiryWindowAsWritten(IntSetting(props, "registrar.binding.expire.time.min", 60),
                          IntSetting(props, "registrar.binding.expire.time.max", 3600))
  }

  /** A configured minimum that parses to 2147483647, with no maximum, yields the overflowed window. */
  lemma ConfiguredOverflow(props: map<string, string>)
    requires "registrar.binding.expire.time.min" in props
    requires ParseInt(Trim(props["registrar.binding.expire.time.min"])) == Some(INT32_MAX)
    requires "registrar.binding.expire.time.max" !in props
    ensures WindowOf(props) == Window(INT32_MAX, 3600) && !WellFormed(WindowOf(props))
  {
  }

  /** Without either setting the window is [60, 3600]. */
  lemma DefaultWindow(props: map<string, string>)
    requires "registrar.binding.expire.time.min" !in props && "registrar.binding.expire.time.max" !in props
    ensures WindowOf(props) == Window(60, 3600)
  {
  }

  /** `registrar.authentication.enabled`, trimmed, equal to "yes" in any letter case; "no" by default. */
  predicate AuthenticationEnabled(props: map<string, string>) {
    EqualsIgnoreCase(Setting(props, "registrar.authentication.enabled", "no"), "yes")
  }

  /** `max(e, MIN)` then `min(·, MAX)` on a non-zero expiry; zero stays zero (it means "remove"). */
  function Clamp(e: int, w: Window): (r: int)
    ensures e == 0 ==> r == 0
    ensures e != 0 && w.min <= w.max ==> w.min <= r <= w.max
    ensures w.min <= e <= w.max ==> r == e
  {
    if e == 0 then 0 else Min(Max(e, w.min), w.max)
  }

  /** Clamping twice is clamping once. */
  lemma ClampIdempotent(e: int, w: Window)
    requires w.min <= w.max
    ensures Clamp(Clamp(e, w), w) == Clamp(e, w)
  {
  }

  /**
   * The requested expiry of RFC 3261 section 10.3 step 7: the contact's
   * `expires` parameter, else the Expires header, else the default (MAX).
   */
  function Requested(c: ContactValue, header: Option<int>, default: int): int {
    if c.expires != NO_EXPIRES then c.expires
    else match header case Some(e) => e case None => default
  }

  /**
   * The expiry `processRegister` writes into a contact: the Expires header
   * (or MAX) clamped, taken when the contact has no `expires` of its own,
   * clamped again. This is the requested expiry clamped once: zero when zero
   * was asked for, inside the window otherwise.
   */
  function RequestedExpiry(c: ContactValue, header: Option<int>, w: Window): (r: int)
    ensures WellFormed(w) ==> r == Clamp(Requested(c, header, w.max), w)
    ensures WellFormed(w) ==> (r == 0 <==> Requested(c, header, w.max) == 0)
    ensures WellFormed(w) && r != 0 ==> w.min <= r <= w.max
  {
    var expiresTime := Clamp(match header case Some(e) => e case None => w.max, w);
    var contactExpiresTime := if c.expires == NO_EXPIRES then expiresTime else c.expires;
    Clamp(contactExpiresTime, w)
  }

  // ---------------------------------------------------------------------
  // Screening

  /** How processing a REGISTER ends: a reply, or an exception (the RMI entry point then returns null). */
  datatype Outcome = Replied(response: Response) | Raised

  /**
   * The clone `processRegister` works on when a domain is given: the
   * Request-URI's host and, when the To URI is a SIP URI, its host become
   * that domain. The casts fail (an exception) on a non-SIP Request-URI and
   * on a request without To header. Without a domain it is the request itself.
   */
  function Fix(req: Request, correctDomain: Option<string>): (r: Option<Request>)
    ensures correctDomain.None? ==> r == Some(req)
    ensures correctDomain.Some? ==> (r.None? <==> !req.requestUri.IsSip() || req.to.None?)
    ensures correctDomain.Some? && r.Some? ==>
              r.value.(requestUri := req.requestUri, to := req.to) == req
              && r.value.requestUri == req.requestUri.(host := correctDomain.value)
              && r.value.to.Some? && r.value.to.value.tag == req.to.value.tag
              && (req.to.value.uri.SipUri? ==> r.value.to.value.uri == req.to.value.uri.(host := correctDomain.value))
              && (!req.to.value.uri.SipUri? ==> r.value.to == req.to)
  {
    match correctDomain
    case None => Some(req)
    case Some(d) =>
      if !req.requestUri.SipUri? || req.to.None? then None
      else
        var to := req.to.value;
        var to' := if to.uri.SipUri? then to.(uri := to.uri.(host := d)) else to;
        Some(req.(requestUri := req.requestUri.(host := d), to := Some(to')))
  }

  /** The first stages of `processRegister`: the reply when one of them fails, else the request to go on with. */
  datatype Screening = Rejected(response: Response) | Raises | Admitted(fixed: Request, host: string)

  /** The reply to a Request-URI in a domain this registrar does not serve. */
  function Forbidden(req: Request, host: string): Response {
    CreateResponse(403, req).(reason := Some("The registrar is not responsible for domain " + host + "."))
  }

  /** Steps 5 and 6 of the chain: the address of record is the To URI, in the Request-URI's domain. */
  datatype AorScreening = AorRejected | AorRaises | AorKey(key: string)

  /**
   * The To header of the working request: its canonical URI must be a SIP
   * URI whose host equals the Request-URI's host ignoring case (else 404);
   * the key is then the To URI's key. A missing To header is an exception.
   */
  function AorCheck(fixed: Request, host: string): (r: AorScreening)
    ensures r.AorRaises? <==> fixed.to.None?
    ensures r.AorKey? <==> fixed.to.Some? && fixed.to.value.uri.SipUri? && EqualsIgnoreCase(fixed.to.value.uri.host, host)
    ensures r.AorKey? ==> RequestKey(fixed) == Some(r.key)
  {
    match fixed.to
    case None => AorRaises
    case Some(to) =>
      var aor := Canonicalize(to.uri);
      if !aor.SipUri? then AorRejected
      else if !EqualsIgnoreCase(aor.host, host) then AorRejected
      else AorKey(RequestKey(fixed).value)
  }

  // ---------------------------------------------------------------------
  // Authorization

  /** The user part of a digest user name: the text before its first '@', or the whole name. */
  function StripDomain(name: string): (r: string)
    ensures '@' !in r
    ensures '@' !in name ==> r == name
    ensures '@' in name ==> r != name && r == name[..IndexOf(name, '@')]
  {
    var i := IndexOf(name, '@');
    if i == -1 then name else name[..i]
  }

  /** How `checkAuthorization` ends: true, false, UserNotFoundException, or another exception. */
  datatype AuthCheck = Passed | Failed | NoSuchUser | AuthRaises

  /** `doAuthenticate`'s result; its NullPointerException and NoSuchElementException are exceptions here too. */
  function VerdictCheck(v: Verdict): (r: AuthCheck)
    ensures r == Passed <==> v == Authorized
    ensures r == Failed <==> v == Unauthorized
  {
    match v
    case Authorized => Passed
    case Unauthorized => Failed
    case NullResponse => AuthRaises
    case NoPreferredAlgorithm => AuthRaises
  }

  /** `checkAuthorization` up to the call of `doAuthenticate`: its result, or what it passes on. */
  datatype Claim = Decided(check: AuthCheck) | Claimed(creds: Credentials, user: string, password: string)

  /** A password that was never provisioned (null) is taken as "". */
  function PasswordText(p: Option<string>): string {
    match p case Some(s) => s case None => ""
  }

  /**
   * The checks of `checkAuthorization` before the digest: an Authorization
   * header is needed (else false); the subscriber of the To URI's key must
   * exist (else UserNotFound; a request without key makes the table fail);
   * the header needs a user name (else false) whose part before '@' is the
   * subscriber's user name (else false; a subscriber without one makes
   * `equals` fail). What is passed on is that user part.
   */
  function ClaimOf(req: Request, ls: LocationService): (r: Claim)
    requires ls.Valid()
    reads ls`database, ls`Profiles, ls`keyOf
    ensures r.Claimed? ==> req.authorization == Some(r.creds) && r.creds.username.Some?
                           && r.user == StripDomain(r.creds.username.value)
  {
    match req.authorization
    case None => Decided(Failed)
    case Some(creds) =>
      match RequestKey(req)
      case None => Decided(AuthRaises)
      case Some(key) =>
        match ls.GetUsername(key)
        case UserNotFound => Decided(NoSuchUser)
        case Found(username) =>
          var password := match ls.GetPassword(key) case Found(p) => PasswordText(p) case UserNotFound => "";
          if creds.username.None? then Decided(Failed)
          else
            var stripped := StripDomain(creds.username.value);
            if username.None? then Decided(AuthRaises)
            else if username.value != stripped then Decided(Failed)
            else Claimed(creds, stripped, password)
  }

  /**
   * `checkAuthorization` as written: `doAuthenticate` is given the user part,
   * which it compares with the header's full user name. A user name with a
   * domain, the form the stripping exists for, is therefore never accepted.
   */
  function CheckAuthorizationAsWritten(req: Request, dsam: DigestServerAuthenticationMethod, ls: LocationService): (r: AuthCheck)
    requires ls.Valid() && dsam.Valid()
    reads ls`database, ls`Profiles, ls`keyOf
    ensures req.authorization.Some? && req.authorization.value.username.Some? && '@' in req.authorization.value.username.value
            ==> r != Passed
  {
    match ClaimOf(req, ls)
    case Decided(check) => check
    case Claimed(creds, user, password) => VerdictCheck(dsam.DoAuthenticate(req.verb, creds, user, password))
  }

  /**
   * `checkAuthorization` with the digest checked against the user name the
   * client sent: accepted exactly when the subscriber exists, its user name
   * is the header's name up to any '@', and the response is the digest over
   * the header's name and the subscriber's password.
   */
  function CheckAuthorization(req: Request, dsam: DigestServerAuthenticationMethod, ls: LocationService): (r: AuthCheck)
    requires ls.Valid() && dsam.Valid()
    reads ls`database, ls`Profiles, ls`keyOf
    ensures r == Passed <==>
              req.authorization.Some? && RequestKey(req).Some? && RequestKey(req).value in ls.Aors()
              && var creds := req.authorization.value;
                 var aor := ls.Aors()[RequestKey(req).value];
                 creds.username.Some? && aor.user == Some(StripDomain(creds.username.value))
                 && dsam.DoAuthenticate(req.verb, creds, creds.username.value, PasswordText(aor.password)) == Authorized
    ensures r == NoSuchUser <==>
              req.authorization.Some? && RequestKey(req).Some? && RequestKey(req).value !in ls.Aors()
    ensures req.authorization.None? ==> r == Failed
  {
    match ClaimOf(req, ls)
    case Decided(check) => check
    case Claimed(creds, user, password) => VerdictCheck(dsam.DoAuthenticate(req.verb, creds, creds.username.value, password))
  }

  /** For user names without '@' the two agree. */
  lemma AuthorizationAgreesWithoutDomain(req: Request, dsam: DigestServerAuthenticationMethod, ls: LocationService)
    requires ls.Valid() && dsam.Valid()
    requires req.authorization.Some? && req.authorization.value.username.Some? && '@' !in req.authorization.value.username.value
    ensures CheckAuthorization(req, dsam, ls) == CheckAuthorizationAsWritten(req, dsam, ls)
  {
  }

  /**
   * A client that sends "user@domain" and the digest over that name and the
   * subscriber's password is accepted.
   */
  lemma QualifiedNameAccepted(req: Request, dsam: DigestServerAuthenticationMethod, ls: LocationService,
                              creds: Credentials, name: string, key: string, algorithm: string)
    requires ls.Valid() && dsam.Valid()
    requires req.authorization == Some(creds) && creds.username == Some(name) && '@' in name
    requires RequestKey(req) == Some(key) && key in ls.Aors() && ls.Aors()[key].user == Some(StripDomain(name))
    requires creds.uri.Some? && creds.algorithm == Some(algorithm) && algorithm in dsam.algorithms
    requires creds.response == Some(RequestDigest(dsam.algorithms[algorithm], name, dsam.RealmOf(creds),
               PasswordText(ls.Aors()[key].password), ToUpper(req.verb), UriString(creds.uri.value), Text(creds.nonce), creds.cnonce))
    ensures CheckAuthorization(req, dsam, ls) == Passed
    ensures CheckAuthorizationAsWritten(req, dsam, ls) == Failed
  {
    assert dsam.ChosenAlgorithm(creds) == Some(algorithm);
  }

  /** The 401 reply: one Digest challenge with the default realm, a new nonce, an empty opaque and stale=FALSE. */
  function Challenged(req: Request, realm: string, nonce: string, algorithm: string): (r: Response)
    ensures r.status == 401 && |r.wwwAuthenticate| == 1
    ensures r.wwwAuthenticate[0] == Challenge("Digest", realm, nonce, "", false, algorithm)
  {
    CreateResponse(401, req).(wwwAuthenticate := [Challenge("Digest", realm, nonce, "", false, algorithm)])
  }

  // ---------------------------------------------------------------------
  // Contact processing, on values

  /** The contact with the expiry `processRegister` writes into it. */
  function Adjusted(c: ContactValue, header: Option<int>, w: Window): (r: ContactValue)
    ensures r.uri == c.uri && r.wildcard == c.wildcard && r.expires == RequestedExpiry(c, header, w)
  {
    c.(expires := RequestedExpiry(c, header, w))
  }

  /** Every Contact header of the request with its expiry written in, in order. */
  function AdjustedAll(cs: seq<ContactValue>, header: Option<int>, w: Window): (r: seq<ContactValue>)
    ensures |r| == |cs|
  {
    if |cs| == 0 then [] else [Adjusted(cs[0], header, w)] + AdjustedAll(cs[1..], header, w)
  }

  lemma {:induction false} AdjustedAt(cs: seq<ContactValue>, header: Option<int>, w: Window, i: nat)
    requires i < |cs|
    ensures AdjustedAll(cs, header, w)[i] == Adjusted(cs[i], header, w)
  {
    if i > 0 {
      AdjustedAt(cs[1..], header, w, i - 1);
    }
  }

  /** Inside a well-formed window every written expiry is 0 or lies in the window. */
  predicate Allowed(c: ContactValue, w: Window) {
    c.expires == 0 || w.min <= c.expires <= w.max
  }

  lemma AdjustedAllowed(cs: seq<ContactValue>, header: Option<int>, w: Window)
    requires WellFormed(w)
    ensures forall i :: 0 <= i < |cs| ==> Allowed(AdjustedAll(cs, header, w)[i], w)
  {
    forall i | 0 <= i < |cs|
      ensures Allowed(AdjustedAll(cs, header, w)[i], w)
    {
      AdjustedAt(cs, header, w, i);
    }
  }

  /** The subscriber's bindings after some contacts, and the reply code of a contact that failed. */
  datatype Applied = Applied(bindings: seq<BindingValue>, failure: Option<int>)

  /**
   * RFC 3261 section 10.3 step 7: an existing binding of the contact with the
   * request's Call-ID and a CSeq not below the request's makes the request
   * fail; a binding with another Call-ID does not.
   */
  predicate Stale(vs: seq<BindingValue>, c: ContactValue, callId: string, cseq: int) {
    var i := Find(vs, Canonicalize(c.uri));
    i != -1 && vs[i].callId == callId && cseq <= vs[i].cseq
  }

  /** The binding a contact leaves behind: none for expiry 0, else the new one. */
  function Written(key: string, contact: ContactValue, callId: string, cseq: int): (r: seq<BindingValue>)
    ensures contact.expires == 0 ==> r == []
    ensures contact.expires != 0 ==> r == [Registered(key, contact, contact.expires, callId, cseq)]
  {
    if contact.expires == 0 then [] else [Registered(key, contact, contact.expires, callId, cseq)]
  }

  /**
   * One contact (its expiry already written in) on a known subscriber's
   * list, as one walk down the list: the first binding of the contact is
   * stale (the contact fails with 400) or gives way, and the new binding,
   * if any, goes last.
   */
  function ContactStep(vs: seq<BindingValue>, key: string, contact: ContactValue, callId: string, cseq: int): Applied
    decreases |vs|
  {
    if |vs| == 0 then Applied(Written(key, contact, callId, cseq), None)
    else if Canonicalize(vs[0].contact.uri) == Canonicalize(contact.uri) then
      if vs[0].callId == callId && cseq <= vs[0].cseq then Applied(vs, Some(400))
      else Applied(vs[1..] + Written(key, contact, callId, cseq), None)
    else
      var r := ContactStep(vs[1..], key, contact, callId, cseq);
      if r.failure.Some? then Applied(vs, r.failure) else Applied([vs[0]] + r.bindings, None)
  }

  /** Past a first binding of another contact, the staleness is that of the rest. */
  lemma StalePastHead(vs: seq<BindingValue>, c: ContactValue, callId: string, cseq: int)
    requires |vs| > 0 && Canonicalize(vs[0].contact.uri) != Canonicalize(c.uri)
    ensures Stale(vs, c, callId, cseq) == Stale(vs[1..], c, callId, cseq)
  {
    var k := Find(vs[1..], Canonicalize(c.uri));
    if k != -1 {
      assert vs[k + 1] == vs[1..][k];
    }
  }

  /** At a first binding of the contact, the lookup finds it. */
  lemma StaleAtHead(vs: seq<BindingValue>, c: ContactValue, callId: string, cseq: int)
    requires |vs| > 0 && Canonicalize(vs[0].contact.uri) == Canonicalize(c.uri)
    ensures Stale(vs, c, callId, cseq) == (vs[0].callId == callId && cseq <= vs[0].cseq)
  {
    assert Find(vs, Canonicalize(c.uri)) == 0;
  }

  /**
   * The walk is what `processRegister` does with the location service: look
   * the contact's binding up, fail with 400 when it is stale, else remove it
   * (expiry 0) or replace it.
   */
  lemma {:induction false} ContactStepAsLookup(vs: seq<BindingValue>, key: string, contact: ContactValue, callId: string, cseq: int)
    ensures ContactStep(vs, key, contact, callId, cseq)
            == if Stale(vs, contact, callId, cseq) then Applied(vs, Some(400))
               else Applied(RemoveContact(vs, Canonicalize(contact.uri)) + Written(key, contact, callId, cseq), None)
    decreases |vs|
  {
    if |vs| > 0 {
      if Canonicalize(vs[0].contact.uri) != Canonicalize(contact.uri) {
        ContactStepAsLookup(vs[1..], key, contact, callId, cseq);
        StalePastHead(vs, contact, callId, cseq);
        ConcatAssoc([vs[0]], RemoveContact(vs[1..], Canonicalize(contact.uri)), Written(key, contact, callId, cseq));
      } else {
        StaleAtHead(vs, contact, callId, cseq);
      }
    }
  }

  /** The same, with the removal and the replacement the location service offers. */
  lemma StepAsServiceCalls(vs: seq<BindingValue>, key: string, contact: ContactValue, callId: string, cseq: int)
    ensures ContactStep(vs, key, contact, callId, cseq)
            == if Stale(vs, contact, callId, cseq) then Applied(vs, Some(400))
               else if contact.expires == 0 then Applied(RemoveContact(vs, Canonicalize(contact.uri)), None)
               else Applied(Replace(vs, Registered(key, contact, contact.expires, callId, cseq)), None)
  {
    ContactStepAsLookup(vs, key, contact, callId, cseq);
    var v := Registered(key, contact, contact.expires, callId, cseq);
    assert Canonicalize(v.contact.uri) == Canonicalize(contact.uri);
  }

  /** A contact fails exactly when its binding is stale, and then with 400 and no change. */
  lemma StepFailure(vs: seq<BindingValue>, key: string, contact: ContactValue, callId: string, cseq: int)
    ensures var r := ContactStep(vs, key, contact, callId, cseq);
            (r.failure.Some? <==> Stale(vs, contact, callId, cseq)) && (r.failure.Some? ==> r == Applied(vs, Some(400)))
  {
    StepAsServiceCalls(vs, key, contact, callId, cseq);
  }

  /** Every element of a list with one contact's binding removed was in the list. */
  lemma RemoveContactSubset(vs: seq<BindingValue>, canonical: Uri)
    ensures forall b :: b in RemoveContact(vs, canonical) ==> b in vs
  {
    RemoveContactAt(vs, canonical);
    var i := Find(vs, canonical);
    if i != -1 {
      forall b | b in vs[..i] + vs[i + 1..]
        ensures b in vs
      {
        var j :| 0 <= j < |vs[..i] + vs[i + 1..]| && (vs[..i] + vs[i + 1..])[j] == b;
        if j < i { assert b == vs[j]; } else { assert b == vs[j + 1]; }
      }
    }
  }

  /** A binding whose expiry lies inside the window. */
  predicate WithinWindow(b: BindingValue, w: Window) {
    w.min <= b.contact.expires <= w.max
  }

  /** After one contact, every binding of the subscriber was there before or lies inside the window. */
  lemma StepWithinWindow(vs: seq<BindingValue>, key: string, contact: ContactValue, callId: string, cseq: int, w: Window)
    requires WellFormed(w) && Allowed(contact, w)
    ensures forall b :: b in ContactStep(vs, key, contact, callId, cseq).bindings ==> b in vs || WithinWindow(b, w)
  {
    StepAsServiceCalls(vs, key, contact, callId, cseq);
    RemoveContactSubset(vs, Canonicalize(contact.uri));
    if contact.expires != 0 {
      var v := Registered(key, contact, contact.expires, callId, cseq);
      assert v.contact.expires == contact.expires;
    }
  }

  /**
   * After one accepted contact on a list without two bindings of one
   * contact: with expiry 0 no binding of that contact is left; otherwise
   * exactly one is, the last one, carrying the expiry, Call-ID and CSeq.
   */
  lemma StepRecordsContact(vs: seq<BindingValue>, key: string, contact: ContactValue, callId: string, cseq: int)
    requires UniqueContacts(vs)
    requires ContactStep(vs, key, contact, callId, cseq).failure.None?
    ensures var r := ContactStep(vs, key, contact, callId, cseq).bindings;
            UniqueContacts(r)
            && (contact.expires == 0 ==> forall i :: 0 <= i < |r| ==> Canonicalize(r[i].contact.uri) != Canonicalize(contact.uri))
            && (contact.expires != 0 ==>
                  |r| > 0 && r[|r| - 1] == Registered(key, contact, contact.expires, callId, cseq)
                  && forall i :: 0 <= i < |r| - 1 ==> Canonicalize(r[i].contact.uri) != Canonicalize(contact.uri))
  {
    StepAsServiceCalls(vs, key, contact, callId, cseq);
    if contact.expires == 0 {
      RemoveContactSpec(vs, Canonicalize(contact.uri));
      var r := RemoveContact(vs, Canonicalize(contact.uri));
      assert forall i :: 0 <= i < |r| ==> r[i] in r;
    } else {
      ReplaceSpec(vs, Registered(key, contact, contact.expires, callId, cseq));
    }
  }

  /** One contact keeps the subscriber's contacts unique. */
  lemma StepUnique(vs: seq<BindingValue>, key: string, contact: ContactValue, callId: string, cseq: int)
    requires UniqueContacts(vs)
    ensures UniqueContacts(ContactStep(vs, key, contact, callId, cseq).bindings)
  {
    StepAsServiceCalls(vs, key, contact, callId, cseq);
    if contact.expires == 0 {
      RemoveContactSpec(vs, Canonicalize(contact.uri));
    } else {
      ReplaceSpec(vs, Registered(key, contact, contact.expires, callId, cseq));
    }
  }

  /** The first `n` contacts applied in order, stopping at the first that fails. */
  function ApplyFirst(vs: seq<BindingValue>, key: string, cs: seq<ContactValue>, callId: string, cseq: int, n: nat): Applied
    requires n <= |cs|
    decreases n
  {
    if n == 0 then Applied(vs, None)
    else
      var a := ApplyFirst(vs, key, cs, callId, cseq, n - 1);
      if a.failure.Some? then a else ContactStep(a.bindings, key, cs[n - 1], callId, cseq)
  }

  /**
   * When the contacts fail, one of them was stale against the bindings the
   * contacts before it had left: the reply is 400 and those earlier changes
   * stay.
   */
  lemma {:induction false} FailureKeepsEarlierChanges(vs: seq<BindingValue>, key: string, cs: seq<ContactValue>, callId: string, cseq: int, n: nat)
    requires n <= |cs|
    requires ApplyFirst(vs, key, cs, callId, cseq, n).failure.Some?
    ensures exists j :: 0 <= j < n && ApplyFirst(vs, key, cs, callId, cseq, j).failure.None?
              && Stale(ApplyFirst(vs, key, cs, callId, cseq, j).bindings, cs[j], callId, cseq)
              && ApplyFirst(vs, key, cs, callId, cseq, n) == Applied(ApplyFirst(vs, key, cs, callId, cseq, j).bindings, Some(400))
  {
    var a := ApplyFirst(vs, key, cs, callId, cseq, n - 1);
    if a.failure.Some? {
      FailureKeepsEarlierChanges(vs, key, cs, callId, cseq, n - 1);
      var j :| 0 <= j < n - 1 && ApplyFirst(vs, key, cs, callId, cseq, j).failure.None?
                && Stale(ApplyFirst(vs, key, cs, callId, cseq, j).bindings, cs[j], callId, cseq)
                && a == Applied(ApplyFirst(vs, key, cs, callId, cseq, j).bindings, Some(400));
      assert ApplyFirst(vs, key, cs, callId, cseq, n) == a;
    } else {
      StepFailure(a.bindings, key, cs[n - 1], callId, cseq);
    }
  }

  /** Once a contact has failed, the later ones change nothing. */
  lemma {:induction false} FailureSticks(vs: seq<BindingValue>, key: string, cs: seq<ContactValue>, callId: string, cseq: int, n: nat, m: nat)
    requires n <= m <= |cs|
    requires ApplyFirst(vs, key, cs, callId, cseq, n).failure.Some?
    ensures ApplyFirst(vs, key, cs, callId, cseq, m) == ApplyFirst(vs, key, cs, callId, cseq, n)
    decreases m
  {
    if m > n {
      FailureSticks(vs, key, cs, callId, cseq, n, m - 1);
    }
  }

  /** Every binding of the subscriber after the contacts was there before or lies inside the window. */
  lemma {:induction false} ApplyWithinWindow(vs: seq<BindingValue>, key: string, cs: seq<ContactValue>, callId: string, cseq: int, w: Window, n: nat)
    requires n <= |cs| && WellFormed(w) && forall i :: 0 <= i < |cs| ==> Allowed(cs[i], w)
    ensures forall b :: b in ApplyFirst(vs, key, cs, callId, cseq, n).bindings ==> b in vs || WithinWindow(b, w)
  {
    if n > 0 {
      ApplyWithinWindow(vs, key, cs, callId, cseq, w, n - 1);
      var a := ApplyFirst(vs, key, cs, callId, cseq, n - 1);
      if a.failure.None? {
        StepWithinWindow(a.bindings, key, cs[n - 1], callId, cseq, w);
      }
    }
  }

  /** The subscriber never gets two bindings of one contact. */
  lemma {:induction false} ApplyUnique(vs: seq<BindingValue>, key: string, cs: seq<ContactValue>, callId: string, cseq: int, n: nat)
    requires n <= |cs| && UniqueContacts(vs)
    ensures UniqueContacts(ApplyFirst(vs, key, cs, callId, cseq, n).bindings)
  {
    if n > 0 {
      ApplyUnique(vs, key, cs, callId, cseq, n - 1);
      var a := ApplyFirst(vs, key, cs, callId, cseq, n - 1);
      if a.failure.None? {
        StepUnique(a.bindings, key, cs[n - 1], callId, cseq);
      }
    }
  }

  /** The index of the first wildcard Contact, or the number of contacts. */
  function WildcardAt(cs: seq<ContactValue>): (r: nat)
    ensures r <= |cs|
    ensures r < |cs| ==> cs[r].wildcard
    ensures forall j :: 0 <= j < r ==> !cs[j].wildcard
  {
    if |cs| == 0 then 0 else if cs[0].wildcard then 0 else 1 + WildcardAt(cs[1..])
  }

  /** The store after a REGISTER's contacts, with the reply. */
  datatype Phase = Phase(store: map<string, seq<BindingValue>>, response: Response)

  /** The 200 reply: every current contact of the subscriber and a Date header. */
  function Ok(req: Request, contacts: seq<ContactValue>): (r: Response)
    ensures r.status == 200 && r.contacts == contacts && r.hasDate
  {
    CreateResponse(200, req).(contacts := contacts, hasDate := true)
  }

  /** `getContactHeaders` and the reply: 200 with the subscriber's contacts, 404 for an unknown key. */
  function Listing(store: map<string, seq<BindingValue>>, key: string, req: Request): (r: Phase)
    ensures r.store == store
    ensures r.response.status == 200 <==> key in store
    ensures key in store ==> r.response == Ok(req, Contacts(store[key]))
    ensures key !in store ==> r.response == CreateResponse(404, req)
  {
    if key in store then Phase(store, Ok(req, Contacts(store[key]))) else Phase(store, CreateResponse(404, req))
  }

  /**
   * Steps 6 to 8 of RFC 3261 section 10.3 as `processRegister` does them:
   * no Contact is a query; a wildcard anywhere needs a single Contact and
   * `Expires: 0` (else 400) and removes every binding; otherwise each
   * contact in turn with its expiry written in, the first one failing with
   * 404 when the subscriber is unknown to the location service. The reply
   * lists the bindings afterwards.
   */
  function Registration(store: map<string, seq<BindingValue>>, key: string, req: Request, w: Window): Phase
  {
    var cs := req.contacts;
    if |cs| == 0 then Listing(store, key, req)
    else if WildcardAt(cs) < |cs| then
      if |cs| != 1 || req.expires != Some(0) then Phase(store, CreateResponse(400, req))
      else if key !in store then Phase(store, CreateResponse(404, req))
      else Listing(store[key := []], key, req)
    else if key !in store then Phase(store, CreateResponse(404, req))
    else
      var a := ApplyFirst(store[key], key, AdjustedAll(cs, req.expires, w), req.callId, req.cseq, |cs|);
      match a.failure
      case Some(code) => Phase(store[key := a.bindings], CreateResponse(code, req))
      case None => Listing(store[key := a.bindings], key, req)
  }

  /** The contacts phase of `Registration`, from the result of the contact loop. */
  lemma ContactsPhase(store: map<string, seq<BindingValue>>, key: string, req: Request, w: Window,
                      after: map<string, seq<BindingValue>>, failure: Option<int>)
    requires |req.contacts| > 0 && WildcardAt(req.contacts) == |req.contacts|
    requires key !in store ==> after == store && failure == Some(404)
    requires key in store ==>
               var a := ApplyFirst(store[key], key, AdjustedAll(req.contacts, req.expires, w), req.callId, req.cseq, |req.contacts|);
               after == store[key := a.bindings] && failure == a.failure
    ensures failure.Some? ==> Phase(after, CreateResponse(failure.value, req)) == Registration(store, key, req, w)
    ensures failure.None? ==> Listing(after, key, req) == Registration(store, key, req, w)
  {
  }

  /**
   * Only the subscriber's own bindings change; an unknown subscriber gets
   * 400 or 404 and nothing changes.
   */
  lemma RegistrationKeepsOthers(store: map<string, seq<BindingValue>>, key: string, req: Request, w: Window)
    ensures var r := Registration(store, key, req, w);
            r.store.Keys == store.Keys && (forall k :: k in store && k != key ==> r.store[k] == store[k])
            && (key !in store ==> r.store == store && r.response.status in {400, 404})
  {
  }

  /**
   * The reply is 200, 400 or 404; a 200 lists exactly the subscriber's
   * bindings as now stored, with a Date header.
   */
  lemma RegistrationReply(store: map<string, seq<BindingValue>>, key: string, req: Request, w: Window)
    ensures var r := Registration(store, key, req, w);
            r.response.status in {200, 400, 404}
            && (r.response.status == 200 ==> key in r.store && r.response == Ok(req, Contacts(r.store[key])))
  {
    var cs := req.contacts;
    if |cs| > 0 && WildcardAt(cs) == |cs| && key in store {
      var adjusted := AdjustedAll(cs, req.expires, w);
      if ApplyFirst(store[key], key, adjusted, req.callId, req.cseq, |cs|).failure.Some? {
        FailureKeepsEarlierChanges(store[key], key, adjusted, req.callId, req.cseq, |cs|);
      }
    }
  }

  /** Every stored binding of the subscriber was there before or has an expiry inside the window. */
  lemma RegistrationWithinWindow(store: map<string, seq<BindingValue>>, key: string, req: Request, w: Window)
    requires WellFormed(w) && key in store
    ensures var r := Registration(store, key, req, w);
            key in r.store && forall b :: b in r.store[key] ==> b in store[key] || WithinWindow(b, w)
  {
    var cs := req.contacts;
    if |cs| > 0 && WildcardAt(cs) == |cs| {
      AdjustedAllowed(cs, req.expires, w);
      ApplyWithinWindow(store[key], key, AdjustedAll(cs, req.expires, w), req.callId, req.cseq, w, |cs|);
    }
  }

  /**
   * The wildcard rule: with a wildcard Contact anywhere, the request succeeds
   * exactly when it is the only Contact, `Expires: 0` is present and the
   * subscriber exists, and then every binding of the subscriber is gone;
   * otherwise nothing changes.
   */
  lemma WildcardRule(store: map<string, seq<BindingValue>>, key: string, req: Request, w: Window)
    requires exists i :: 0 <= i < |req.contacts| && req.contacts[i].wildcard
    ensures var r := Registration(store, key, req, w);
            (r.response.status == 200 <==> |req.contacts| == 1 && req.expires == Some(0) && key in store)
            && (r.response.status == 200 ==> r.store == store[key := []] && r.response.contacts == [])
            && (r.response.status != 200 ==> r.store == store)
  {
  }

  /** A REGISTER without Contact changes nothing and lists the subscriber's bindings. */
  lemma QueryChangesNothing(store: map<string, seq<BindingValue>>, key: string, req: Request, w: Window)
    requires req.contacts == []
    ensures Registration(store, key, req, w).store == store
    ensures key in store ==> Registration(store, key, req, w).response.contacts == Contacts(store[key])
  {
  }

  /** No subscriber gets two bindings of one contact. */
  lemma RegistrationUnique(store: map<string, seq<BindingValue>>, key: string, req: Request, w: Window)
    requires AllUnique(store)
    ensures AllUnique(Registration(store, key, req, w).store)
  {
    var cs := req.contacts;
    if |cs| > 0 && WildcardAt(cs) == |cs| && key in store {
      ApplyUnique(store[key], key, AdjustedAll(cs, req.expires, w), req.callId, req.cseq, |cs|);
    }
  }

  // ---------------------------------------------------------------------
  // The registrar

  class Registrar {
    /** The served domains; `defaultDomain` is the one their iterator yields first. */
    const domains: set<string>
    const defaultDomain: string
    /** The addresses and host names of the registrar's network interfaces. */
    const ipAndHostNames: set<string>
    const window: Window
    const authenticationEnabled: bool
    const dsam: DigestServerAuthenticationMethod
    /** The location service, or null when it cannot be reached. */
    const locationService: LocationService?

    ghost predicate Valid()
      reads dsam
    {
      defaultDomain in domains && dsam.Valid() && dsam.defaultRealm == defaultDomain
    }

    /**
     * The constructor's logic: the window and the authentication flag from
     * the configuration, and a digest method for the default domain with MD5
     * as its only algorithm.
     */
    constructor (props: map<string, string>, domains: set<string>, defaultDomain: string, ipAndHostNames: set<string>,
                 locationService: LocationService?, md5: HashFunction, randomStream: nat -> int)
      requires defaultDomain in domains
      ensures Valid() && fresh(dsam)
      ensures this.domains == domains && this.defaultDomain == defaultDomain && this.ipAndHostNames == ipAndHostNames
      ensures this.locationService == locationService
      ensures window == WindowOf(props) && authenticationEnabled == AuthenticationEnabled(props)
      ensures dsam.algorithms == map["MD5" := md5] && dsam.enumeration == ["MD5"] && dsam.draws == 0
    {
      var auth := new DigestServerAuthenticationMethod(defaultDomain, map["MD5" := md5], ["MD5"], randomStream);
      this.domains, this.defaultDomain, this.ipAndHostNames := domains, defaultDomain, ipAndHostNames;
      this.locationService := locationService;
      window, authenticationEnabled := WindowOf(props), AuthenticationEnabled(props);
      dsam := auth;
    }

    /** `isDomainServed`. */
    predicate IsDomainServed(domain: string) {
      domain in domains
    }

    /** `addrMatchesInterface`. */
    predicate AddrMatchesInterface(addr: string) {
      addr in ipAndHostNames
    }

    /** The domain override of `processRequest`: a Request-URI naming one of the interfaces means the default domain. */
    function OverriddenDomain(req: Request): (r: Option<string>)
      ensures r.Some? <==> req.requestUri.SipUri? && req.requestUri.host in ipAndHostNames
      ensures r.Some? ==> r.value == defaultDomain
    {
      if req.requestUri.SipUri? && AddrMatchesInterface(req.requestUri.host) then Some(defaultDomain) else None
    }

    /**
     * The first three checks of `processRegister`: the canonical Request-URI
     * of the working request must be a SIP URI (else 400) in a served domain
     * (else 403), and the request as received must not carry Proxy-Require
     * (else 420 naming its option tag as Unsupported).
     */
    function Screen(req: Request, correctDomain: Option<string>): (r: Screening)
      ensures r.Raises? <==> Fix(req, correctDomain).None?
      ensures r.Rejected? ==> r.response.callId == req.callId && r.response.vias == req.vias && r.response.cseq == req.cseq
      ensures r.Admitted? ==> Some(r.fixed) == Fix(req, correctDomain) && r.fixed.requestUri.SipUri?
                              && r.host == r.fixed.requestUri.host && IsDomainServed(r.host) && req.proxyRequire.None?
      ensures r.Rejected? && r.response.status == 420 ==> r.response.unsupported == req.proxyRequire
    {
      match Fix(req, correctDomain)
      case None => Raises
      case Some(fixed) =>
        var uri := Canonicalize(fixed.requestUri);
        if !uri.SipUri? then Rejected(CreateResponse(400, req))
        else if !IsDomainServed(uri.host) then Rejected(Forbidden(req, uri.host))
        else if req.proxyRequire.Some? then Rejected(CreateResponse(420, req).(unsupported := req.proxyRequire))
        else Admitted(fixed, uri.host)
    }

    /** A REGISTER addressed to one of the registrar's interfaces is never refused for its domain. */
    lemma OverrideIsServed(req: Request)
      requires Valid() && OverriddenDomain(req).Some? && req.to.Some?
      ensures !Screen(req, OverriddenDomain(req)).Raises?
      ensures Screen(req, OverriddenDomain(req)).Rejected? ==> Screen(req, OverriddenDomain(req)).response.status == 420
    {
    }

    /** The order of the first checks: 400, then 403, then 420, each ending the request. */
    lemma ScreenOrder(req: Request, correctDomain: Option<string>)
      requires Fix(req, correctDomain).Some?
      ensures var fixed := Fix(req, correctDomain).value;
              var r := Screen(req, correctDomain);
              (!fixed.requestUri.IsSip() ==> r == Rejected(CreateResponse(400, req)))
              && (fixed.requestUri.IsSip() && !IsDomainServed(fixed.requestUri.host) ==> r == Rejected(Forbidden(req, fixed.requestUri.host)))
              && (fixed.requestUri.IsSip() && IsDomainServed(fixed.requestUri.host) && req.proxyRequire.Some? ==>
                    r.Rejected? && r.response.status == 420)
              && (r.Admitted? <==> fixed.requestUri.IsSip() && IsDomainServed(fixed.requestUri.host) && req.proxyRequire.None?)
    {
    }

    /** The result of the authentication step: `checkAuthorization` as written when authentication is on, else a pass. */
    ghost function AuthGate(fixed: Request): AuthCheck
      requires Valid() && locationService != null && locationService.Valid()
      reads dsam, locationService
    {
      if authenticationEnabled then CheckAuthorizationAsWritten(fixed, dsam, locationService) else Passed
    }

    /**
     * `processRegister(request, correctDomain)`: the checks in order, the
     * first failing one deciding the reply (400, 403, 420, 500, 401, 404,
     * 404), then the contacts on the location service and the listing. The
     * location service changes only in that last phase and the nonce counter
     * only for a 401.
     */
    method ProcessRegister(req: Request, correctDomain: Option<string>, now: int) returns (outcome: Outcome)
      requires Valid()
      requires locationService != null ==> locationService.Valid() && AllUnique(locationService.Snapshot())
      modifies (if locationService != null then locationService.Profiles else {})`bindings, dsam`draws
      ensures locationService != null ==> locationService.Valid() && AllUnique(locationService.Snapshot())
      ensures Screen(req, correctDomain).Raises? ==> outcome == Raised
      ensures Screen(req, correctDomain).Rejected? ==> outcome == Replied(Screen(req, correctDomain).response)
      ensures Screen(req, correctDomain).Admitted? && locationService == null ==> outcome == Replied(CreateResponse(500, req))
      ensures outcome.Replied? && outcome.response.status == 403 ==> Screen(req, correctDomain).Rejected?
      ensures !(Screen(req, correctDomain).Admitted? && locationService != null && authenticationEnabled
                && old(AuthGate(Screen(req, correctDomain).fixed)) == Failed)
              ==> dsam.draws == old(dsam.draws)
      ensures !(Screen(req, correctDomain).Admitted? && locationService != null && old(AuthGate(Screen(req, correctDomain).fixed)) == Passed)
              && locationService != null
              ==> locationService.Snapshot() == old(locationService.Snapshot())
      ensures Screen(req, correctDomain).Admitted? && locationService != null ==>
                var fixed := Screen(req, correctDomain).fixed;
                var gate := old(AuthGate(fixed));
                (gate == Failed ==> outcome == Raised || outcome.response.status == 401)
                && (gate == Failed && dsam.GetPreferredAlgorithm().Some? ==>
                      var algorithm := dsam.GetPreferredAlgorithm().value;
                      outcome == Replied(Challenged(req, defaultDomain,
                                   NonceOf(dsam.algorithms[algorithm], now, dsam.randomStream(old(dsam.draws))), algorithm)))
                && (gate == NoSuchUser ==> outcome == Replied(CreateResponse(404, req)))
                && (gate == AuthRaises ==> outcome == Raised)
                && (gate == Passed ==>
                      match AorCheck(fixed, Screen(req, correctDomain).host)
                      case AorRaises => outcome == Raised
                      case AorRejected => outcome == Replied(CreateResponse(404, req))
                      case AorKey(key) =>
                        outcome.Replied?
                        && Phase(locationService.Snapshot(), outcome.response) == Registration(old(locationService.Snapshot()), key, req, window))
    {
      var screening := Screen(req, correctDomain);
      if screening.Raises? {
        return Raised;
      }
      if screening.Rejected? {
        return Replied(screening.response);
      }
      var fixed, host := screening.fixed, screening.host;
      if locationService == null {
        return Replied(CreateResponse(500, req));
      }
      if authenticationEnabled {
        var check := CheckAuthorizationAsWritten(fixed, dsam, locationService);
        if check == Failed {
          outcome := Challenge(req, now);
          return;
        } else if check == NoSuchUser {
          return Replied(CreateResponse(404, req));
        } else if check == AuthRaises {
          return Raised;
        }
      }
      var aor := AorCheck(fixed, host);
      if aor.AorRaises? {
        return Raised;
      }
      if aor.AorRejected? {
        return Replied(CreateResponse(404, req));
      }
      RegistrationReply(locationService.Snapshot(), aor.key, req, window);
      var response := RegisterBindings(req, aor.key);
      outcome := Replied(response);
    }

    /**
     * `processRequest(RequestEvent)`: only REGISTER is answered; a
     * Request-URI naming one of the interfaces is processed for the default
     * domain; an exception (a null reply) ends in a 500.
     */
    method ProcessRequestEvent(req: Request, now: int) returns (sent: Option<Response>)
      requires Valid()
      requires locationService != null ==> locationService.Valid() && AllUnique(locationService.Snapshot())
      modifies (if locationService != null then locationService.Profiles else {})`bindings, dsam`draws
      ensures locationService != null ==> locationService.Valid() && AllUnique(locationService.Snapshot())
      ensures req.verb != REGISTER ==> sent.None? && dsam.draws == old(dsam.draws)
      ensures req.verb != REGISTER && locationService != null ==> locationService.Snapshot() == old(locationService.Snapshot())
      ensures req.verb == REGISTER ==> sent.Some?
      ensures req.verb == REGISTER && Screen(req, OverriddenDomain(req)).Raises? ==> sent == Some(CreateResponse(500, req))
      ensures req.verb == REGISTER && Screen(req, OverriddenDomain(req)).Rejected? ==>
                sent == Some(Screen(req, OverriddenDomain(req)).response)
      ensures req.verb == REGISTER && OverriddenDomain(req).Some? ==> sent.value.status != 403
    {
      if req.verb != REGISTER {
        return None;
      }
      var overridenDomain := OverriddenDomain(req);
      if overridenDomain.Some? && req.to.Some? {
        OverrideIsServed(req);
      }
      var outcome := ProcessRegister(req, overridenDomain, now);
      sent := Some(match outcome case Replied(response) => response case Raised => CreateResponse(500, req));
    }

    /** `generateNonce` for the preferred algorithm and the challenge; without an algorithm `nextElement` fails. */
    method Challenge(req: Request, now: int) returns (outcome: Outcome)
      requires Valid()
      modifies dsam`draws
      ensures dsam.GetPreferredAlgorithm().None? ==> outcome == Raised && dsam.draws == old(dsam.draws)
      ensures dsam.GetPreferredAlgorithm().Some? ==>
                var algorithm := dsam.GetPreferredAlgorithm().value;
                outcome == Replied(Challenged(req, defaultDomain,
                             NonceOf(dsam.algorithms[algorithm], now, dsam.randomStream(old(dsam.draws))), algorithm))
                && dsam.draws == old(dsam.draws) + 1
    {
      var preferred := dsam.GetPreferredAlgorithm();
      if preferred.None? {
        return Raised;
      }
      var nonce := dsam.GenerateNonce(preferred.value, now);
      outcome := Replied(Challenged(req, dsam.defaultRealm, nonce, preferred.value));
    }

    /**
     * Steps 6 to 8 on the location service: the contacts of the request as
     * received, then the listing, exactly as `Registration` describes them.
     */
    method RegisterBindings(req: Request, key: string) returns (response: Response)
      requires Valid() && locationService != null && locationService.Valid() && AllUnique(locationService.Snapshot())
      modifies locationService.Profiles`bindings
      ensures locationService.Valid() && AllUnique(locationService.Snapshot())
      ensures Phase(locationService.Snapshot(), response) == Registration(old(locationService.Snapshot()), key, req, window)
    {
      var ls := locationService;
      ghost var before := ls.Snapshot();
      var cs := req.contacts;
      if |cs| > 0 {
        var wildcardIndex := FindWildcard(cs);
        if wildcardIndex < |cs| {
          var failure := RemoveAllContacts(req, key);
          if failure.Some? {
            return CreateResponse(failure.value, req);
          }
        } else {
          var failure := ApplyContacts(req, key);
          ContactsPhase(before, key, req, window, ls.Snapshot(), failure);
          if failure.Some? {
            return CreateResponse(failure.value, req);
          }
        }
      }
      response := ListBindings(req, key);
    }

    /**
     * A wildcard Contact: it must be the only Contact and come with
     * `Expires: 0` (else 400); then every binding of the subscriber goes
     * (404 for an unknown subscriber).
     */
    method RemoveAllContacts(req: Request, key: string) returns (failure: Option<int>)
      requires Valid() && locationService != null && locationService.Valid() && AllUnique(locationService.Snapshot())
      requires |req.contacts| > 0 && WildcardAt(req.contacts) < |req.contacts|
      modifies locationService.Profiles`bindings
      ensures locationService.Valid() && AllUnique(locationService.Snapshot())
      ensures failure.Some? ==>
                Phase(locationService.Snapshot(), CreateResponse(failure.value, req))
                == Registration(old(locationService.Snapshot()), key, req, window)
      ensures failure.None? ==>
                Listing(locationService.Snapshot(), key, req) == Registration(old(locationService.Snapshot()), key, req, window)
    {
      var cs := req.contacts;
      if |cs| != 1 || req.expires.None? || req.expires.value != 0 {
        return Some(400);
      }
      var removed := locationService.RemoveAllBindings(key);
      failure := if removed.UserNotFound? then Some(404) else None;
    }

    /** `getContactHeaders` and the 200 reply, or 404 for an unknown key. */
    method ListBindings(req: Request, key: string) returns (response: Response)
      requires locationService != null && locationService.Valid()
      ensures response == Listing(locationService.Snapshot(), key, req).response
    {
      var contacts := locationService.GetContactHeaders(key);
      if contacts.UserNotFound? {
        return CreateResponse(404, req);
      }
      response := Ok(req, contacts.value);
    }

    /**
     * The loop over the Contact headers, stopping at the first that fails:
     * 404 at once for an unknown subscriber, else the contacts on its list.
     */
    method ApplyContacts(req: Request, key: string) returns (failure: Option<int>)
      requires Valid() && locationService != null && locationService.Valid() && AllUnique(locationService.Snapshot())
      modifies locationService.Profiles`bindings
      ensures locationService.Valid() && AllUnique(locationService.Snapshot())
      ensures key !in old(locationService.Snapshot()) ==>
                locationService.Snapshot() == old(locationService.Snapshot())
                && failure == if |req.contacts| == 0 then None else Some(404)
      ensures key in old(locationService.Snapshot()) ==>
                var a := ApplyFirst(old(locationService.Snapshot())[key], key, AdjustedAll(req.contacts, req.expires, window),
                                    req.callId, req.cseq, |req.contacts|);
                locationService.Snapshot() == old(locationService.Snapshot())[key := a.bindings] && failure == a.failure
    {
      var ls := locationService;
      ghost var before := ls.Snapshot();
      ghost var cs := AdjustedAll(req.contacts, req.expires, window);
      var i := 0;
      while i < |req.contacts|
        invariant 0 <= i <= |req.contacts|
        invariant ls.Valid() && AllUnique(ls.Snapshot())
        invariant key !in before ==> i == 0 && ls.Snapshot() == before
        invariant key in before ==> var a := ApplyFirst(before[key], key, cs, req.callId, req.cseq, i);
                    a.failure.None? && ls.Snapshot() == before[key := a.bindings]
      {
        failure := ContactAt(req, key, i, before);
        if failure.Some? {
          if key in before {
            FailureSticks(before[key], key, cs, req.callId, req.cseq, i + 1, |req.contacts|);
          }
          return;
        }
        i := i + 1;
      }
      failure := None;
    }

    /** The body of that loop: contact `i`, after the contacts before it have all been accepted. */
    method ContactAt(req: Request, key: string, i: nat, ghost before: map<string, seq<BindingValue>>) returns (failure: Option<int>)
      requires Valid() && locationService != null && locationService.Valid() && AllUnique(locationService.Snapshot())
      requires i < |req.contacts|
      requires key !in before ==> i == 0 && locationService.Snapshot() == before
      requires key in before ==>
                 var a := ApplyFirst(before[key], key, AdjustedAll(req.contacts, req.expires, window), req.callId, req.cseq, i);
                 a.failure.None? && locationService.Snapshot() == before[key := a.bindings]
      modifies locationService.Profiles`bindings
      ensures locationService.Valid() && AllUnique(locationService.Snapshot())
      ensures key !in before ==> locationService.Snapshot() == before && failure == Some(404)
      ensures key in before ==>
                var a := ApplyFirst(before[key], key, AdjustedAll(req.contacts, req.expires, window), req.callId, req.cseq, i + 1);
                locationService.Snapshot() == before[key := a.bindings] && failure == a.failure
    {
      ghost var cs := AdjustedAll(req.contacts, req.expires, window);
      AdjustedAt(req.contacts, req.expires, window, i);
      ghost var a := if key in before then ApplyFirst(before[key], key, cs, req.callId, req.cseq, i).bindings else [];
      failure := RegisterContact(req, key, req.contacts[i]);
      if key in before {
        ghost var b := ContactStep(a, key, cs[i], req.callId, req.cseq).bindings;
        UpdateTwice(before, key, a, b);
      }
    }

    /**
     * One Contact header: the expiry is chosen and written into the header,
     * the existing binding is looked up (404 for an unknown subscriber), the
     * Call-ID/CSeq rule applied, and the binding removed or updated.
     */
    method RegisterContact(req: Request, key: string, c: ContactValue) returns (failure: Option<int>)
      requires Valid() && locationService != null && locationService.Valid() && AllUnique(locationService.Snapshot())
      modifies locationService.Profiles`bindings
      ensures locationService.Valid() && AllUnique(locationService.Snapshot())
      ensures key !in old(locationService.Snapshot()) ==>
                locationService.Snapshot() == old(locationService.Snapshot()) && failure == Some(404)
      ensures key in old(locationService.Snapshot()) ==>
                var a := ContactStep(old(locationService.Snapshot())[key], key, Adjusted(c, req.expires, window), req.callId, req.cseq);
                locationService.Snapshot() == old(locationService.Snapshot())[key := a.bindings] && failure == a.failure
    {
      var ls := locationService;
      if key in ls.Snapshot() {
        StepAsServiceCalls(ls.Snapshot()[key], key, Adjusted(c, req.expires, window), req.callId, req.cseq);
      }
      var contactExpiresTime := RequestedExpiry(c, req.expires, window);
      var contact := c.(expires := contactExpiresTime);
      var existing := ls.GetBinding(key, contact);
      if existing.UserNotFound? {
        return Some(404);
      }
      if existing.value.Some? && req.callId == existing.value.value.callId && req.cseq <= existing.value.value.cseq {
        return Some(400);
      }
      var done;
      if contact.expires == 0 {
        done := ls.RemoveBinding(key, contact);
      } else {
        done := ls.UpdateRegistration(key, contact, contact.expires, req.callId, req.cseq);
      }
      failure := if done.UserNotFound? then Some(404) else None;
    }

    /** The loop that looks for a wildcard Contact. */
    method FindWildcard(cs: seq<ContactValue>) returns (wildcardIndex: nat)
      ensures wildcardIndex == WildcardAt(cs)
    {
      wildcardIndex := 0;
      while wildcardIndex < |cs| && !cs[wildcardIndex].wildcard
        invariant wildcardIndex <= |cs|
        invariant forall j :: 0 <= j < wildcardIndex ==> !cs[j].wildcard
      {
        wildcardIndex := wildcardIndex + 1;
      }
    }
  }
}
