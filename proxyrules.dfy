/**
 * The decisions of the proxy core (RFC 3261 sections 16.3 to 16.7), on
 * values: request validation, route preprocessing, the choice of targets,
 * the edits made to each forwarded copy, the Via branch, and the handling
 * of responses. The class in `Proxies` performs them on the stack.
 */
module ProxyRules {
  import opened Common
  import opened Sip
  import opened SipUtils
  import opened Digest
  import opened LocationServices
  import opened Registrars
  import SipStack

  /** A listening point of a SIP provider: its transport and port. */
  datatype ListeningPoint = ListeningPoint(transport: string, port: int)

  /** A SIP provider: one network interface, its address, its host name and its listening points. */
  datatype Provider = Provider(ip: string, hostname: string, points: seq<ListeningPoint>)

  /**
   * What the proxy is configured with: its providers, the domains it is
   * responsible for (`defaultDomain` is the one the set's iterator yields
   * first), the operation mode, whether requests are authenticated, and the
   * MD5 implementation (`MessageDigest.getInstance("MD5")`), if there is one.
   */
  datatype Config = Config(
    providers: seq<Provider>, domains: set<string>, defaultDomain: string,
    stateful: bool, authenticationEnabled: bool, md5: Option<HashFunction>)

  /** Only providers with a listening point are kept; the default domain is one of the domains. */
  predicate WellConfigured(cfg: Config) {
    cfg.defaultDomain in cfg.domains && forall i :: 0 <= i < |cfg.providers| ==> |cfg.providers[i].points| > 0
  }

  /** `proxy.operation.mode`, trimmed and in lower case, must read "statefull"; "stateless" by default. */
  predicate StatefulMode(props: map<string, string>) {
    ToLower(Setting(props, "proxy.operation.mode", "stateless")) == "statefull"
  }

  /** `proxy.authentication.enabled`, trimmed, equal to "yes" in any letter case; "no" by default. */
  predicate ProxyAuthenticationEnabled(props: map<string, string>) {
    EqualsIgnoreCase(Setting(props, "proxy.authentication.enabled", "no"), "yes")
  }

  // ---------------------------------------------------------------------
  // Interfaces and domains

  /** An interface is named by its address or by its host name. */
  predicate Names(p: Provider, addr: string) {
    addr == p.ip || addr == p.hostname
  }

  /** `getProviderByAddr`: the first provider whose address or host name is `addr`, or null. */
  function ProviderByAddr(ps: seq<Provider>, addr: string): (r: Option<Provider>)
    ensures r.Some? <==> exists i :: 0 <= i < |ps| && Names(ps[i], addr)
    ensures r.Some? ==> r.value in ps && Names(r.value, addr)
  {
    if |ps| == 0 then None
    else if Names(ps[0], addr) then Some(ps[0])
    else
      var r := ProviderByAddr(ps[1..], addr);
      assert forall i :: 0 <= i < |ps| - 1 ==> ps[1..][i] == ps[i + 1];
      r
  }

  /** `addrMatchesInterface`. */
  predicate AddrMatchesInterface(cfg: Config, addr: string) {
    ProviderByAddr(cfg.providers, addr).Some?
  }

  /** `isDomainServed`: exact membership, the letter case of the domain counts. */
  predicate IsDomainServed(cfg: Config, domain: string) {
    domain in cfg.domains
  }

  /** A port of -1 (none given) means 5060. */
  function EffectivePort(port: int): (r: int)
    ensures port != NO_PORT ==> r == port
  {
    if port == NO_PORT then DEFAULT_SIP_PORT else port
  }

  // ---------------------------------------------------------------------
  // Validation

  /** Check 2 of section 16.3: sip, sips and tel are the schemes understood. */
  predicate SchemeSupported(u: Uri) {
    u.Scheme() == "sip" || u.Scheme() == "sips" || u.Scheme() == "tel"
  }

  /** Check 3: a Max-Forwards header of zero or less. */
  predicate TooManyHops(req: Request) {
    req.maxForwards.Some? && req.maxForwards.value <= 0
  }

  /**
   * `checkLoopDetection`: the top Via names the receiving interface, by
   * address or by host name in any letter case, with the port of its first
   * listening point (a Via without a port never matches).
   */
  predicate LoopDetected(req: Request, p: Provider)
    requires |p.points| > 0
  {
    |req.vias| > 0
    && (req.vias[0].host == p.ip || EqualsIgnoreCase(req.vias[0].host, p.hostname))
    && req.vias[0].port == p.points[0].port
  }

  /**
   * The request authorization is checked on: when the Request-URI names an
   * interface, a copy whose Request-URI host and SIP To host are the default
   * domain. Such a request without a To header raises (None).
   */
  function AuthSubject(cfg: Config, req: Request): (r: Option<Request>)
    ensures r.None? <==> req.requestUri.SipUri? && AddrMatchesInterface(cfg, req.requestUri.host) && req.to.None?
    ensures r.Some? && !(req.requestUri.SipUri? && AddrMatchesInterface(cfg, req.requestUri.host)) ==> r.value == req
    ensures r.Some? && req.requestUri.SipUri? && AddrMatchesInterface(cfg, req.requestUri.host) ==>
              r.value.requestUri == req.requestUri.(host := cfg.defaultDomain)
              && r.value.to.Some? && r.value.to.value.tag == req.to.value.tag
              && (req.to.value.uri.SipUri? ==> r.value.to.value.uri == req.to.value.uri.(host := cfg.defaultDomain))
              && (!req.to.value.uri.SipUri? ==> r.value.to == req.to)
              && r.value.proxyAuthorization == req.proxyAuthorization && r.value.verb == req.verb
  {
    if req.requestUri.SipUri? && AddrMatchesInterface(cfg, req.requestUri.host) then
      match req.to
      case None => None
      case Some(to) =>
        var toUri := if to.uri.SipUri? then to.uri.(host := cfg.defaultDomain) else to.uri;
        Some(req.(requestUri := req.requestUri.(host := cfg.defaultDomain), to := Some(to.(uri := toUri))))
    else Some(req)
  }

  /** The request as `checkAuthorization` sees it: the Proxy-Authorization header in the place of Authorization. */
  function AsAuthorized(req: Request): Request {
    req.(authorization := req.proxyAuthorization)
  }

  /**
   * `checkProxyAuthorization` as written: as in the registrar, the digest
   * is checked against the user part of the header's name, so a name with a
   * domain is never accepted.
   */
  function CheckProxyAuthorizationAsWritten(req: Request, dsam: DigestServerAuthenticationMethod, ls: LocationService): (r: AuthCheck)
    requires ls.Valid() && dsam.Valid()
    reads ls`database, ls`Profiles, ls`keyOf
    ensures req.proxyAuthorization.Some? && req.proxyAuthorization.value.username.Some?
            && '@' in req.proxyAuthorization.value.username.value
            ==> r != Passed
  {
    CheckAuthorizationAsWritten(AsAuthorized(req), dsam, ls)
  }

  /**
   * `checkProxyAuthorization` with the digest checked against the name the
   * client sent: accepted exactly when the To URI's subscriber exists, its
   * user name is the header's name up to any '@', and the response is the
   * digest over the header's name and the subscriber's password.
   */
  function CheckProxyAuthorization(req: Request, dsam: DigestServerAuthenticationMethod, ls: LocationService): (r: AuthCheck)
    requires ls.Valid() && dsam.Valid()
    reads ls`database, ls`Profiles, ls`keyOf
    ensures r == Passed <==>
              req.proxyAuthorization.Some? && RequestKey(req).Some? && RequestKey(req).value in ls.Aors()
              && var creds := req.proxyAuthorization.value;
                 var aor := ls.Aors()[RequestKey(req).value];
                 creds.username.Some? && aor.user == Some(StripDomain(creds.username.value))
                 && dsam.DoAuthenticate(req.verb, creds, creds.username.value, PasswordText(aor.password)) == Authorized
    ensures r == NoSuchUser <==>
              req.proxyAuthorization.Some? && RequestKey(req).Some? && RequestKey(req).value !in ls.Aors()
    ensures req.proxyAuthorization.None? ==> r == Failed
  {
    assert RequestKey(AsAuthorized(req)) == RequestKey(req);
    CheckAuthorization(AsAuthorized(req), dsam, ls)
  }

  /** A client that sends "user@domain" with the right digest is accepted, and refused as written. */
  lemma QualifiedProxyNameAccepted(req: Request, dsam: DigestServerAuthenticationMethod, ls: LocationService,
                                   creds: Credentials, name: string, key: string, algorithm: string)
    requires ls.Valid() && dsam.Valid()
    requires req.proxyAuthorization == Some(creds) && creds.username == Some(name) && '@' in name
    requires RequestKey(req) == Some(key) && key in ls.Aors() && ls.Aors()[key].user == Some(StripDomain(name))
    requires creds.uri.Some? && creds.algorithm == Some(algorithm) && algorithm in dsam.algorithms
    requires creds.response == Some(RequestDigest(dsam.algorithms[algorithm], name, dsam.RealmOf(creds),
               PasswordText(ls.Aors()[key].password), ToUpper(req.verb), UriString(creds.uri.value), Text(creds.nonce), creds.cnonce))
    ensures CheckProxyAuthorization(req, dsam, ls) == Passed
    ensures CheckProxyAuthorizationAsWritten(req, dsam, ls) == Failed
  {
    assert RequestKey(AsAuthorized(req)) == RequestKey(req);
    QualifiedNameAccepted(AsAuthorized(req), dsam, ls, creds, name, key, algorithm);
  }

  /** How the authorization step ends: passed, a 407 challenge, a 500, or an exception. */
  datatype AuthOutcome = AuthPassed | AuthChallenged | AuthUnreachable | AuthFaulted

  /**
   * The authorization step of `validateRequest`. Without a Proxy-Authorization
   * header no remote call is made and the request is challenged; with one, a
   * remote failure (`remoteDown`) is a 500, an unknown subscriber or a wrong
   * digest a challenge, and any other exception ends the request.
   */
  function AuthStep(subject: Option<Request>, check: AuthCheck, remoteDown: bool): (r: AuthOutcome)
    ensures r == AuthFaulted <==> subject.None? || (subject.value.proxyAuthorization.Some? && !remoteDown && check == AuthRaises)
    ensures subject.Some? && subject.value.proxyAuthorization.None? ==> r == AuthChallenged
    ensures r == AuthPassed <==> subject.Some? && subject.value.proxyAuthorization.Some? && !remoteDown && check == Passed
    ensures r == AuthUnreachable <==> subject.Some? && subject.value.proxyAuthorization.Some? && remoteDown
  {
    match subject
    case None => AuthFaulted
    case Some(fixed) =>
      if fixed.proxyAuthorization.None? then AuthChallenged
      else if remoteDown then AuthUnreachable
      else match check
        case Passed => AuthPassed
        case Failed => AuthChallenged
        case NoSuchUser => AuthChallenged
        case AuthRaises => AuthFaulted
  }

  /** The result of `validateRequest`: valid, an error reply, a 407 to build, or an exception. */
  datatype Validation = Passes | Rejects(response: Response) | Challenges | Fails

  /**
   * `validateRequest`: the checks of section 16.3 in order, the first
   * failing one deciding: the scheme (416), Max-Forwards (483), a loop (482),
   * Proxy-Require (420 naming the option tag as Unsupported), and when
   * authentication is enabled the authorization step.
   */
  function Validate(cfg: Config, p: Provider, req: Request, auth: AuthOutcome): (r: Validation)
    requires |p.points| > 0
    ensures r.Rejects? ==> r.response.callId == req.callId && r.response.vias == req.vias && r.response.cseq == req.cseq
    ensures r.Rejects? ==> r.response.status in {416, 483, 482, 420, 500}
    ensures r == Passes <==>
              SchemeSupported(req.requestUri) && !TooManyHops(req) && !LoopDetected(req, p) && req.proxyRequire.None?
              && (cfg.authenticationEnabled ==> auth == AuthPassed)
    ensures r == Challenges <==>
              SchemeSupported(req.requestUri) && !TooManyHops(req) && !LoopDetected(req, p) && req.proxyRequire.None?
              && cfg.authenticationEnabled && auth == AuthChallenged
  {
    if !SchemeSupported(req.requestUri) then Rejects(CreateResponse(416, req))
    else if TooManyHops(req) then Rejects(CreateResponse(483, req))
    else if LoopDetected(req, p) then Rejects(CreateResponse(482, req))
    else if req.proxyRequire.Some? then Rejects(CreateResponse(420, req).(unsupported := req.proxyRequire))
    else if !cfg.authenticationEnabled then Passes
    else match auth
      case AuthPassed => Passes
      case AuthChallenged => Challenges
      case AuthUnreachable => Rejects(CreateResponse(500, req))
      case AuthFaulted => Fails
  }

  /** The order of the checks: each failing check decides, whatever comes after it. */
  lemma ValidationOrder(cfg: Config, p: Provider, req: Request, auth: AuthOutcome)
    requires |p.points| > 0
    ensures var r := Validate(cfg, p, req, auth);
            (!SchemeSupported(req.requestUri) ==> r == Rejects(CreateResponse(416, req)))
            && (SchemeSupported(req.requestUri) && TooManyHops(req) ==> r == Rejects(CreateResponse(483, req)))
            && (SchemeSupported(req.requestUri) && !TooManyHops(req) && LoopDetected(req, p) ==>
                  r == Rejects(CreateResponse(482, req)))
            && (SchemeSupported(req.requestUri) && !TooManyHops(req) && !LoopDetected(req, p) && req.proxyRequire.Some? ==>
                  r.Rejects? && r.response.status == 420 && r.response.unsupported == req.proxyRequire)
            && (r.Rejects? && r.response.status == 500 <==>
                  SchemeSupported(req.requestUri) && !TooManyHops(req) && !LoopDetected(req, p) && req.proxyRequire.None?
                  && cfg.authenticationEnabled && auth == AuthUnreachable)
  {
  }

  /** The 407 reply: one Digest challenge with the realm, a new nonce, an empty opaque and stale=FALSE. */
  function ProxyChallenged(req: Request, realm: string, nonce: string, algorithm: string): (r: Response)
    ensures r.status == 407 && |r.proxyAuthenticate| == 1 && r.wwwAuthenticate == []
    ensures r.proxyAuthenticate[0] == Challenge("Digest", realm, nonce, "", false, algorithm)
    ensures r.callId == req.callId && r.vias == req.vias
  {
    CreateResponse(407, req).(proxyAuthenticate := [Challenge("Digest", realm, nonce, "", false, algorithm)])
  }

  // ---------------------------------------------------------------------
  // Route preprocessing (section 16.4)

  /**
   * Strict routing: with Route headers present and a Request-URI equal to
   * `sip:<address>:<port>` or `sip:<host name>:<port>` of the receiving
   * interface's first listening point, the Request-URI becomes the last
   * Route value and that value leaves the Route header.
   */
  function StrictRouted(p: Provider, req: Request): (r: Option<Request>)
    requires |p.points| > 0
    ensures r.Some? <==> |req.routes| > 0
                         && (req.requestUri == HostPortUri(p.ip, p.points[0].port)
                             || req.requestUri == HostPortUri(p.hostname, p.points[0].port))
    ensures r.Some? ==> r.value.requestUri == req.routes[|req.routes| - 1]
                        && r.value.routes + [req.routes[|req.routes| - 1]] == req.routes
                        && r.value == req.(requestUri := r.value.requestUri, routes := r.value.routes)
  {
    if |req.routes| > 0
       && (req.requestUri == HostPortUri(p.ip, p.points[0].port) || req.requestUri == HostPortUri(p.hostname, p.points[0].port))
    then
      var n := |req.routes|;
      assert req.routes[..n - 1] + [req.routes[n - 1]] == req.routes;
      Some(req.(requestUri := req.routes[n - 1], routes := req.routes[..n - 1]))
    else None
  }

  /** `getListeningPoint(transport)`: the first listening point of that transport, in any letter case. */
  function PointFor(points: seq<ListeningPoint>, transport: string): (r: Option<ListeningPoint>)
    ensures r.Some? ==> r.value in points && ToUpper(r.value.transport) == ToUpper(transport)
    ensures r.None? ==> forall i :: 0 <= i < |points| ==> ToUpper(points[i].transport) != ToUpper(transport)
  {
    if |points| == 0 then None
    else if ToUpper(points[0].transport) == ToUpper(transport) then Some(points[0])
    else
      var r := PointFor(points[1..], transport);
      assert forall i :: 0 <= i < |points| - 1 ==> points[1..][i] == points[i + 1];
      r
  }

  /**
   * The maddr rule of section 16.4: a maddr naming a served domain or an
   * interface, on a request that arrived on the port and transport the URI
   * names (by default 5060 and udp), is stripped together with the
   * transport parameter; for a non-default port the parameter called
   * "port" is removed as well (the URI's port itself stays).
   */
  function StripMAddr(cfg: Config, p: Provider, u: Uri): (r: Uri)
    ensures MAddrParam(u).None? ==> r == u
    ensures r.SipUri? <==> u.SipUri?
    ensures r.SipUri? ==> r.host == u.host && r.port == u.port && r.user == u.user && r.secure == u.secure
    ensures r != u ==> MAddrParam(r).None? && !HasParam(r.params, "transport")
  {
    match MAddrParam(u)
    case None => u
    case Some(maddr) =>
      if !(IsDomainServed(cfg, maddr) || AddrMatchesInterface(cfg, maddr)) then u
      else
        var transport := match ParamValue(u.params, "transport") case Some(t) => t case None => "udp";
        var port := EffectivePort(u.port);
        match PointFor(p.points, transport)
        case None => u
        case Some(lp) =>
          if port != lp.port then u
          else
            var withoutMAddr := RemoveParam(u.params, "maddr");
            var withoutPort := if u.port != DEFAULT_SIP_PORT && u.port != NO_PORT then RemoveParam(withoutMAddr, "port") else withoutMAddr;
            var stripped := RemoveParam(withoutPort, "transport");
            assert !HasParam(stripped, "maddr") by {
              forall q | q in stripped ensures q.name != "maddr" { }
            }
            u.(params := stripped)
  }

  /**
   * The loose-routing rule of section 16.4: a first Route that is a SIP URI
   * naming an interface, with the first listening point's port (5060 when
   * it has none), is removed.
   */
  function PopOwnRoute(cfg: Config, p: Provider, req: Request): (r: Request)
    requires |p.points| > 0
    ensures r == req || (|req.routes| > 0 && r == req.(routes := req.routes[1..]))
    ensures r != req <==> |req.routes| > 0 && req.routes[0].SipUri? && AddrMatchesInterface(cfg, req.routes[0].host)
                          && EffectivePort(req.routes[0].port) == p.points[0].port
  {
    if |req.routes| > 0 && req.routes[0].SipUri? && AddrMatchesInterface(cfg, req.routes[0].host)
       && EffectivePort(req.routes[0].port) == p.points[0].port
    then
      assert |req.(routes := req.routes[1..]).routes| < |req.routes|;
      req.(routes := req.routes[1..])
    else req
  }

  /** Route preprocessing after the strict-routing check: the maddr rule, then the own-route rule. */
  function Preprocessed(cfg: Config, p: Provider, req: Request): (r: Request)
    requires |p.points| > 0
    ensures r.verb == req.verb && r.to == req.to && r.callId == req.callId && r.vias == req.vias
    ensures r.requestUri == StripMAddr(cfg, p, req.requestUri)
  {
    PopOwnRoute(cfg, p, req.(requestUri := StripMAddr(cfg, p, req.requestUri)))
  }

  // ---------------------------------------------------------------------
  // Targets (section 16.5)

  /**
   * The target set is the Request-URI alone when it carries a maddr (one
   * that the maddr rule did not strip) or names a host that is neither a
   * served domain nor an interface.
   */
  predicate Predetermined(cfg: Config, req: Request) {
    req.requestUri.SipUri?
    && (MAddrParam(req.requestUri).Some?
        || (!IsDomainServed(cfg, req.requestUri.host) && !AddrMatchesInterface(cfg, req.requestUri.host)))
  }

  /** The outcome of computing the location-service key: no To header raises, a null key is possible. */
  datatype KeyOutcome = NoToHeader | Key(key: Option<string>)

  /**
   * The key of the To URI, with a To host naming an interface read as the
   * default domain (the location service only knows domains).
   */
  function TargetKey(cfg: Config, req: Request): (r: KeyOutcome)
    ensures r == NoToHeader <==> req.to.None?
    ensures r.Key? && req.to.value.uri.SipUri? && AddrMatchesInterface(cfg, req.to.value.uri.host) ==>
              r.key == LocationKey(req.to.value.uri.(host := cfg.defaultDomain)) && r.key.Some?
    ensures r.Key? && !(req.to.value.uri.SipUri? && AddrMatchesInterface(cfg, req.to.value.uri.host)) ==>
              r.key == RequestKey(req)
  {
    match req.to
    case None => NoToHeader
    case Some(to) =>
      if to.uri.SipUri? && AddrMatchesInterface(cfg, to.uri.host) then Key(LocationKey(to.uri.(host := cfg.defaultDomain)))
      else Key(RequestKey(req))
  }

  /** A stateless proxy keeps only the first of several targets (section 16.11). */
  function Targets(cfg: Config, contacts: seq<ContactValue>): (r: seq<ContactValue>)
    ensures !cfg.stateful ==> |r| <= 1
    ensures |r| == 0 <==> |contacts| == 0
    ensures |r| > 0 ==> r[0] == contacts[0]
    ensures cfg.stateful ==> r == contacts
    ensures forall c :: c in r ==> c in contacts
  {
    if !cfg.stateful && |contacts| > 1 then [contacts[0]] else contacts
  }

  // ---------------------------------------------------------------------
  // The forwarded copy (section 16.6)

  /** The Record-Route value `sip:<host name>:<port>;lr` of the receiving interface. */
  function RecordRouteOf(p: Provider): (r: Uri)
    requires |p.points| > 0
    ensures r.SipUri? && r.host == p.hostname && r.port == p.points[0].port && HasParam(r.params, "lr")
  {
    var r := SipUri(false, None, None, p.hostname, p.points[0].port, [UriParam("lr", "")], []);
    assert r.params[0].name == "lr";
    r
  }

  /**
   * Item 6 of section 16.6: when the first Route is a SIP URI without `lr`
   * (a strict router), the Request-URI goes to the end of the Route header
   * and the first Route becomes the Request-URI.
   */
  function NextHop(requestUri: Uri, routes: seq<Uri>): (r: (Uri, seq<Uri>))
  {
    if |routes| > 0 && routes[0].SipUri? && !HasParam(routes[0].params, "lr") then (routes[0], routes[1..] + [requestUri])
    else (requestUri, routes)
  }

  /** Nothing is lost in the rotation: the Request-URI and the routes are the same values as before. */
  lemma NextHopKeepsValues(requestUri: Uri, routes: seq<Uri>)
    ensures var (u, rs) := NextHop(requestUri, routes);
            multiset(rs) + multiset{u} == multiset(routes) + multiset{requestUri} && |rs| == |routes|
  {
    if |routes| > 0 && routes[0].SipUri? && !HasParam(routes[0].params, "lr") {
      assert routes == [routes[0]] + routes[1..];
      assert multiset(routes) == multiset{routes[0]} + multiset(routes[1..]);
    }
  }

  /** A loose first Route leaves the Request-URI and the routes alone; a strict one rotates them. */
  lemma NextHopCases(requestUri: Uri, routes: seq<Uri>)
    ensures |routes| > 0 && routes[0].SipUri? && !HasParam(routes[0].params, "lr") ==>
              NextHop(requestUri, routes).0 == routes[0] && NextHop(requestUri, routes).1[|routes| - 1] == requestUri
              && NextHop(requestUri, routes).1[..|routes| - 1] == routes[1..]
    ensures !(|routes| > 0 && routes[0].SipUri? && !HasParam(routes[0].params, "lr")) ==>
              NextHop(requestUri, routes) == (requestUri, routes)
  {
    if |routes| > 0 && routes[0].SipUri? && !HasParam(routes[0].params, "lr") {
      assert (routes[1..] + [requestUri])[..|routes| - 1] == routes[1..];
    }
  }

  /**
   * `forwardRequest` on the copy: the canonical target as Request-URI,
   * Max-Forwards decremented (70 when absent), the Record-Route of the
   * interface first, the strict-router rotation, a new top Via with the
   * interface's host name, port, transport and the branch, and a
   * Content-Length (the body's size) when there was none.
   */
  function Forwarded(p: Provider, req: Request, target: Uri, branch: string): (r: Request)
    requires |p.points| > 0
    ensures r.verb == req.verb && r.to == req.to && r.from == req.from && r.callId == req.callId && r.cseq == req.cseq
    ensures r.maxForwards == Some(match req.maxForwards case None => 70 case Some(m) => m - 1)
    ensures r.recordRoutes == [RecordRouteOf(p)] + req.recordRoutes
    ensures (r.requestUri, r.routes) == NextHop(Canonicalize(target), req.routes)
    ensures |r.vias| == |req.vias| + 1 && r.vias[1..] == req.vias
    ensures r.vias[0] == Via(p.hostname, p.points[0].port, p.points[0].transport, Some(branch))
    ensures r.contentLength == Some(match req.contentLength case None => req.rawContentSize case Some(n) => n)
    ensures r.proxyRequire == req.proxyRequire && r.contacts == req.contacts
  {
    var (uri, routes) := NextHop(Canonicalize(target), req.routes);
    var via := Via(p.hostname, p.points[0].port, p.points[0].transport, Some(branch));
    var r := req.(
      requestUri := uri,
      routes := routes,
      maxForwards := Some(match req.maxForwards case None => 70 case Some(m) => m - 1),
      recordRoutes := [RecordRouteOf(p)] + req.recordRoutes,
      vias := [via] + req.vias,
      contentLength := Some(match req.contentLength case None => req.rawContentSize case Some(n) => n));
    assert r.vias[1..] == req.vias;
    r
  }

  /** A valid request is forwarded with fewer hops left than it arrived with, and never with a negative count. */
  lemma ForwardedHops(p: Provider, req: Request, target: Uri, branch: string)
    requires |p.points| > 0 && !TooManyHops(req)
    ensures var r := Forwarded(p, req, target, branch);
            r.maxForwards.Some? && r.maxForwards.value >= 0
            && (req.maxForwards.Some? ==> r.maxForwards.value < req.maxForwards.value)
  {
  }

  /** The proxy recognises the Via it adds: a request forwarded to itself is a loop. */
  lemma ForwardedCopyLoops(cfg: Config, p: Provider, req: Request, target: Uri, branch: string)
    requires |p.points| > 0
    ensures LoopDetected(Forwarded(p, req, target, branch), p)
  {
    var r := Forwarded(p, req, target, branch);
    LowerIdempotent(p.hostname);
    assert EqualsIgnoreCase(r.vias[0].host, p.hostname);
  }

  // ---------------------------------------------------------------------
  // The branch parameter (item 8 of section 16.6)

  /** `String.hashCode`: h = 31 h + c over the characters, in 32-bit arithmetic. */
  function HashCodeFrom(h: int, s: string): (r: int)
    requires IsInt32(h)
    ensures IsInt32(r)
    ensures s == [] ==> r == h
    decreases |s|
  {
    if |s| == 0 then h else HashCodeFrom(ToInt32(31 * h + s[0] as int), s[1..])
  }

  function HashCode(s: string): (r: int)
    ensures IsInt32(r)
  {
    HashCodeFrom(0, s)
  }

  /** The hash code of a string is fixed by its prefix's hash code and the rest. */
  lemma {:induction false} HashCodeConcat(h: int, a: string, b: string)
    requires IsInt32(h)
    ensures HashCodeFrom(h, a + b) == HashCodeFrom(HashCodeFrom(h, a), b)
    decreases |a|
  {
    if |a| == 0 {
      assert a + b == b;
    } else {
      assert (a + b)[0] == a[0] && (a + b)[1..] == a[1..] + b;
      HashCodeConcat(ToInt32(31 * h + a[0] as int), a[1..], b);
    }
  }

  /** A missing tag reads "null" when concatenated. */
  function TagText(tag: Option<string>): string {
    match tag case Some(t) => t case None => "null"
  }

  /** The text a stateless proxy hashes when the inbound branch is not an RFC 3261 one. */
  function HashInput(v: Via, to: Address, from: Address, callId: string, cseq: int, requestUri: Uri): string {
    Trim("Via: " + ViaString(v) + "\r\n") + TagText(to.tag) + TagText(from.tag) + callId + IntToString(cseq) + Trim(UriString(requestUri))
  }

  /** The branch a stateless forward uses: a hash of the request, the random one, or an exception. */
  datatype BranchChoice = Hashed(branch: string) | RandomBranch | BranchFails

  /**
   * The stateless branch: without a top Via, or without MD5, the random
   * branch stays. Otherwise an inbound branch with the magic cookie is
   * hashed through its hash code, and any other through the Via, the tags,
   * the Call-ID, the CSeq number and the Request-URI. A Via without branch,
   * or a missing To or From, raises.
   */
  function StatelessBranch(req: Request, md5: Option<HashFunction>): (r: BranchChoice)
    ensures r.Hashed? ==> IsLowerHex(r.branch)
    ensures |req.vias| == 0 || md5.None? ==> r == RandomBranch
  {
    if |req.vias| == 0 || md5.None? then RandomBranch
    else
      var top := req.vias[0];
      match top.branch
      case None => BranchFails
      case Some(b) =>
        if StartsWith(b, BRANCH_MAGIC_COOKIE) then Hashed(H(md5.value, IntToString(HashCode(b))))
        else if req.to.None? || req.from.None? then BranchFails
        else Hashed(H(md5.value, HashInput(top, req.to.value, req.from.value, req.callId, req.cseq, req.requestUri)))
  }

  /** A lower-case hex text never starts with the magic cookie. */
  lemma HexHasNoCookie(s: string)
    requires IsLowerHex(s)
    ensures !StartsWith(s, BRANCH_MAGIC_COOKIE)
  {
    if |s| >= |BRANCH_MAGIC_COOKIE| {
      assert s[0] in HEX_DIGITS;
      assert s[..|BRANCH_MAGIC_COOKIE|][0] != BRANCH_MAGIC_COOKIE[0];
    }
  }

  /**
   * A hashed stateless branch is bare hex: it lacks the magic cookie of
   * section 8.1.1.7, so the next hop sees an RFC 2543 branch. Two requests
   * that agree on the hashed fields get the same branch.
   */
  lemma StatelessBranchShape(req: Request, md5: Option<HashFunction>, other: Request)
    requires StatelessBranch(req, md5).Hashed?
    requires other.vias == req.vias && other.to == req.to && other.from == req.from && other.callId == req.callId
    requires other.cseq == req.cseq && other.requestUri == req.requestUri
    ensures !StartsWith(StatelessBranch(req, md5).branch, BRANCH_MAGIC_COOKIE)
    ensures StatelessBranch(other, md5) == StatelessBranch(req, md5)
  {
    HexHasNoCookie(StatelessBranch(req, md5).branch);
  }

  /** With the cookie, only the inbound branch's hash code matters. */
  lemma CookieBranchIgnoresRest(req: Request, md5: HashFunction, other: Request)
    requires |req.vias| > 0 && |other.vias| > 0 && req.vias[0].branch.Some? && other.vias[0].branch.Some?
    requires StartsWith(req.vias[0].branch.value, BRANCH_MAGIC_COOKIE)
    requires HashCode(other.vias[0].branch.value) == HashCode(req.vias[0].branch.value)
    requires StartsWith(other.vias[0].branch.value, BRANCH_MAGIC_COOKIE)
    ensures StatelessBranch(other, Some(md5)) == StatelessBranch(req, Some(md5))
  {
  }

  // ---------------------------------------------------------------------
  // Responses (section 16.7)

  /**
   * `processResponseStatelessly`: a response whose top Via names an
   * interface with the first listening point's port (5060 when absent)
   * loses that Via and is sent on, when a Via remains.
   */
  function StatelesslyRelayed(cfg: Config, p: Provider, resp: Response): (r: Option<Response>)
    requires |p.points| > 0
    ensures r.Some? <==> |resp.vias| >= 2 && AddrMatchesInterface(cfg, resp.vias[0].host)
                         && EffectivePort(resp.vias[0].port) == p.points[0].port
    ensures r.Some? ==> r.value == resp.(vias := resp.vias[1..]) && |r.value.vias| >= 1
  {
    if |resp.vias| > 0 && AddrMatchesInterface(cfg, resp.vias[0].host) && EffectivePort(resp.vias[0].port) == p.points[0].port
       && |resp.vias[1..]| > 0
    then Some(resp.(vias := resp.vias[1..]))
    else None
  }

  /** `removeFirst(Via)`. */
  function PopVia(resp: Response): (r: Response)
    ensures |resp.vias| > 0 ==> r.vias == resp.vias[1..]
    ensures |resp.vias| == 0 ==> r == resp
  {
    if |resp.vias| > 0 then resp.(vias := resp.vias[1..]) else resp
  }

  predicate IsCompleted(s: TxState) { s.Value() >= Completed.Value() }

  /** 101 to 199 to an INVITE re-arms Timer C (section 16.7 step 2). */
  predicate RearmsTimerC(resp: Response) {
    101 <= resp.status <= 199 && resp.cseqMethod == INVITE
  }

  /** What a stateful proxy does with a response, once its own Via is popped. */
  datatype Reaction =
    | Consult        // no Via left: only the response context is consulted
    | Drop           // not forwarded
    | Relay          // sent on at once
    | StoreRelay     // stored, then sent on at once (2xx)
    | StoreCancel    // stored, pending branches cancelled, then the context consulted (6xx)
    | Store          // stored, then the context consulted

  /**
   * The decision tree of `processIncomingResponse`: once the server
   * transaction has completed only a 2xx to INVITE is sent on; a 100 is
   * dropped and other provisional responses are sent on; a final response is
   * stored, a 2xx sent on at once, and a 6xx cancels the pending branches.
   */
  function React(popped: Response, serverState: TxState): (r: Reaction)
    ensures |popped.vias| == 0 <==> r == Consult
    ensures |popped.vias| > 0 && IsCompleted(serverState) ==>
              (r == Relay <==> 200 <= popped.status <= 299 && popped.cseqMethod == INVITE) && (r == Relay || r == Drop)
    ensures r in {StoreRelay, StoreCancel, Store} <==> |popped.vias| > 0 && !IsCompleted(serverState) && IsFinal(popped.status)
    ensures r == StoreRelay ==> 200 <= popped.status <= 299
    ensures r == StoreCancel <==> |popped.vias| > 0 && !IsCompleted(serverState) && 600 <= popped.status <= 699
    ensures popped.status == 100 ==> r == Drop || r == Consult
  {
    if |popped.vias| == 0 then Consult
    else if IsCompleted(serverState) then
      if 200 <= popped.status <= 299 && popped.cseqMethod == INVITE then Relay else Drop
    else if !IsFinal(popped.status) then
      if popped.status == 100 then Drop else Relay
    else if 200 <= popped.status <= 299 then StoreRelay
    else if popped.status >= 600 then StoreCancel
    else Store
  }

  /** The completion gate: the server transaction has not completed and every client transaction has. */
  predicate ContextReady(serverTx: TxId, clientTxs: set<TxId>, states: TxId -> TxState) {
    !IsCompleted(states(serverTx)) && forall ct :: ct in clientTxs ==> IsCompleted(states(ct))
  }

  /** The client transactions in PROCEEDING, in the given order. */
  function ProceedingOnes(order: seq<TxId>, states: TxId -> TxState): (r: seq<TxId>)
    ensures |r| <= |order|
    ensures forall ct :: ct in r <==> ct in order && states(ct) == Proceeding
  {
    if |order| == 0 then []
    else
      var rest := ProceedingOnes(order[1..], states);
      assert forall ct :: ct in order <==> ct == order[0] || ct in order[1..];
      if states(order[0]) == Proceeding then [order[0]] + rest else rest
  }

  /** The CANCELs sent for client transactions in the given order: one per transaction in PROCEEDING, on new handles. */
  function CancelsFor(order: seq<TxId>, states: TxId -> TxState, nextId: TxId): (r: seq<SipStack.Outgoing>)
  {
    if |order| == 0 then []
    else if states(order[0]) == Proceeding then [SipStack.CancelOf(nextId, order[0])] + CancelsFor(order[1..], states, nextId + 1)
    else CancelsFor(order[1..], states, nextId)
  }

  /**
   * Step 10 of section 16.7: the i-th CANCEL is sent on the i-th new
   * transaction and cancels the i-th transaction in PROCEEDING, so exactly
   * those are cancelled, each once when the order has no repetition.
   */
  lemma {:induction false} CancelsForSpec(order: seq<TxId>, states: TxId -> TxState, nextId: TxId)
    ensures |CancelsFor(order, states, nextId)| == |ProceedingOnes(order, states)|
    ensures forall i :: 0 <= i < |CancelsFor(order, states, nextId)| ==>
              CancelsFor(order, states, nextId)[i] == SipStack.CancelOf(nextId + i, ProceedingOnes(order, states)[i])
  {
    if |order| > 0 {
      var next := if states(order[0]) == Proceeding then nextId + 1 else nextId;
      CancelsForSpec(order[1..], states, next);
      if states(order[0]) == Proceeding {
        var r, p := CancelsFor(order, states, nextId), ProceedingOnes(order, states);
        assert r == [SipStack.CancelOf(nextId, order[0])] + CancelsFor(order[1..], states, next);
        assert p == [order[0]] + ProceedingOnes(order[1..], states);
        forall i | 0 <= i < |r| ensures r[i] == SipStack.CancelOf(nextId + i, p[i]) {
          if i > 0 {
            assert r[i] == CancelsFor(order[1..], states, next)[i - 1];
            assert p[i] == ProceedingOnes(order[1..], states)[i - 1];
          }
        }
      }
    }
  }

  /** No transaction occurs twice. */
  predicate Distinct(s: seq<TxId>) {
    forall i, j :: 0 <= i < j < |s| ==> s[i] != s[j]
  }

  /** Filtering keeps distinct transactions distinct. */
  lemma {:induction false} ProceedingOnesDistinct(order: seq<TxId>, states: TxId -> TxState)
    requires Distinct(order)
    ensures Distinct(ProceedingOnes(order, states))
  {
    if |order| > 0 {
      assert forall i, j :: 0 <= i < j < |order| - 1 ==> order[1..][i] == order[i + 1] && order[1..][j] == order[j + 1];
      ProceedingOnesDistinct(order[1..], states);
      var rest := ProceedingOnes(order[1..], states);
      assert order[0] !in order[1..];
      assert order[0] !in rest;
      if states(order[0]) == Proceeding {
        var r := [order[0]] + rest;
        assert ProceedingOnes(order, states) == r;
        forall i, j | 0 <= i < j < |r| ensures r[i] != r[j] {
          assert r[j] == rest[j - 1] && rest[j - 1] in rest;
          if i > 0 { assert r[i] == rest[i - 1]; }
        }
      } else {
        assert ProceedingOnes(order, states) == rest;
      }
    }
  }


  /** One more client transaction at the end of the order is filtered on its own. */
  lemma {:induction false} ProceedingOnesSnoc(order: seq<TxId>, ct: TxId, states: TxId -> TxState)
    decreases |order|
    ensures ProceedingOnes(order + [ct], states)
            == ProceedingOnes(order, states) + (if states(ct) == Proceeding then [ct] else [])
  {
    var r := order + [ct];
    if |order| == 0 {
      assert r[1..] == [];
    } else {
      assert r[0] == order[0] && r[1..] == order[1..] + [ct];
      ProceedingOnesSnoc(order[1..], ct, states);
      var tail := ProceedingOnes(order[1..], states);
      var extra := if states(ct) == Proceeding then [ct] else [];
      if states(order[0]) == Proceeding {
        assert ProceedingOnes(r, states) == [order[0]] + (tail + extra);
        assert ProceedingOnes(order, states) == [order[0]] + tail;
      } else {
        assert ProceedingOnes(r, states) == tail + extra;
        assert ProceedingOnes(order, states) == tail;
      }
    }
  }

  /** One more client transaction at the end of the order adds at most one CANCEL, at the end, on the next handle. */
  lemma {:induction false} CancelsForSnoc(order: seq<TxId>, ct: TxId, states: TxId -> TxState, nextId: TxId)
    decreases |order|
    ensures CancelsFor(order + [ct], states, nextId)
            == CancelsFor(order, states, nextId)
               + (if states(ct) == Proceeding then [SipStack.CancelOf(nextId + |ProceedingOnes(order, states)|, ct)] else [])
  {
    var r := order + [ct];
    if |order| == 0 {
      assert r[1..] == [];
    } else {
      assert r[0] == order[0] && r[1..] == order[1..] + [ct];
      var p := states(order[0]) == Proceeding;
      var next := if p then nextId + 1 else nextId;
      CancelsForSnoc(order[1..], ct, states, next);
      var tail := CancelsFor(order[1..], states, next);
      var extra := if states(ct) == Proceeding then [SipStack.CancelOf(next + |ProceedingOnes(order[1..], states)|, ct)] else [];
      assert |ProceedingOnes(order, states)| == |ProceedingOnes(order[1..], states)| + (if p then 1 else 0);
      if p {
        assert CancelsFor(r, states, nextId) == [SipStack.CancelOf(nextId, order[0])] + (tail + extra);
        assert CancelsFor(order, states, nextId) == [SipStack.CancelOf(nextId, order[0])] + tail;
      } else {
        assert CancelsFor(r, states, nextId) == tail + extra;
        assert CancelsFor(order, states, nextId) == tail;
      }
    }
  }

  // ---------------------------------------------------------------------
  // The branch of a forwarded copy, and the target decision

  /**
   * A stateless forward raises while it computes its branch: with MD5 and a
   * top Via, a null branch, or a branch without the magic cookie and a
   * missing To or From.
   */
  predicate BranchRaises(cfg: Config, req: Request) {
    && !cfg.stateful && |req.vias| > 0 && cfg.md5.Some?
    && (|| req.vias[0].branch.None?
        || (!StartsWith(req.vias[0].branch.value, BRANCH_MAGIC_COOKIE) && (req.to.None? || req.from.None?)))
  }

  /** `BranchRaises` is exactly the stateless branch computation failing. */
  lemma BranchRaisesIsFailure(cfg: Config, req: Request)
    ensures BranchRaises(cfg, req) <==> !cfg.stateful && StatelessBranch(req, cfg.md5).BranchFails?
  {
  }

  /**
   * The branch of the forwarded copy: the random one drawn for it
   * (`generateBranchId`), which a stateless proxy replaces by the hashed
   * one when it computes one.
   */
  function ForwardBranch(cfg: Config, req: Request, random: string): (r: Option<string>)
    ensures r.None? <==> BranchRaises(cfg, req)
    ensures cfg.stateful || StatelessBranch(req, cfg.md5).RandomBranch? ==> r == Some(random)
    ensures !cfg.stateful && StatelessBranch(req, cfg.md5).Hashed? ==> r == Some(StatelessBranch(req, cfg.md5).branch)
  {
    if cfg.stateful then Some(random)
    else match StatelessBranch(req, cfg.md5)
      case Hashed(b) => Some(b)
      case RandomBranch => Some(random)
      case BranchFails => None
  }

  /**
   * The copy `forwardRequest` sends for one target, given the random
   * branch drawn for it: none when the request's Request-URI is not a SIP
   * URI or the branch cannot be computed.
   */
  function ForwardedCopy(cfg: Config, p: Provider, req: Request, target: Uri, random: string): (r: Option<Request>)
    requires |p.points| > 0
    ensures r.None? <==> !req.requestUri.SipUri? || BranchRaises(cfg, req)
  {
    if !req.requestUri.SipUri? then None
    else match ForwardBranch(cfg, req, random)
      case None => None
      case Some(b) => Some(Forwarded(p, req, target, b))
  }

  /**
   * A stateless proxy forwards a retransmission with the branch it gave the
   * original (section 16.11): when the branch is hashed, the random draw
   * does not matter.
   */
  lemma StatelessCopyIgnoresDraw(cfg: Config, p: Provider, req: Request, target: Uri, random: string, other: string)
    requires |p.points| > 0 && !cfg.stateful && StatelessBranch(req, cfg.md5).Hashed? && req.requestUri.SipUri?
    ensures ForwardedCopy(cfg, p, req, target, random) == ForwardedCopy(cfg, p, req, target, other)
    ensures ForwardedCopy(cfg, p, req, target, random).value.vias[0].branch == Some(StatelessBranch(req, cfg.md5).branch)
  {
  }

  /** A stateful proxy's copy carries the drawn branch, which has the magic cookie (section 8.1.1.7). */
  lemma StatefulCopyHasCookie(cfg: Config, p: Provider, req: Request, target: Uri, randomValue: int, now: int)
    requires |p.points| > 0 && cfg.stateful && req.requestUri.SipUri?
    ensures var c := ForwardedCopy(cfg, p, req, target, BranchId(cfg.md5, randomValue, now));
            c.Some? && c.value.vias[0].branch.Some? && StartsWith(c.value.vias[0].branch.value, BRANCH_MAGIC_COOKIE)
  {
  }

  /** What a method plugin does with a request: answers it, declines it (null), or throws. */
  datatype PluginReply = Declined | Answers(response: Response) | PluginFails

  /** The URIs of the targets' contacts, in order. */
  function UrisOf(cs: seq<ContactValue>): (r: seq<Uri>)
    ensures |r| == |cs| && forall i :: 0 <= i < |cs| ==> r[i] == cs[i].uri
  {
    if |cs| == 0 then [] else [cs[0].uri] + UrisOf(cs[1..])
  }

  /** What `processIncomingRequest` does once routing is preprocessed. */
  datatype Plan =
    | ForwardTo(targets: seq<Uri>, stateful: bool)  // a copy to each target, on client transactions when `stateful`
    | Answer(response: Response)                    // a reply, on the server transaction when there is one
    | CancelContext(invite: TxId)                   // 200 to the CANCEL, and the INVITE's pending branches cancelled
    | PlanRaises                                    // an exception ends the request

  /**
   * Target determination (section 16.5) on the preprocessed request, with
   * `st` the server transaction, `cancelled` the INVITE transaction a
   * CANCEL cancels, `mapped` the server transactions that have a mapping,
   * `plugin` the reply of the method's plugin if there is one, `remoteDown`
   * whether the location service fails remotely and `directory` its
   * contacts per key. The Request-URI alone is the target when it carries
   * a maddr or names a foreign host. A stateful CANCEL is answered against
   * its INVITE's context, or else forwarded statelessly (without a server
   * transaction it raises). A plugin's answer is sent, its failure is a
   * 500. Otherwise the To URI's contacts are the targets: 500 when the
   * service fails, 404 for an unknown subscriber, 480 when none is
   * registered, and only the first for a stateless proxy.
   */
  function Dispatch(cfg: Config, req: Request, st: Option<TxId>, cancelled: Option<TxId>, mapped: set<TxId>,
                    plugin: Option<PluginReply>, remoteDown: bool, directory: map<string, seq<ContactValue>>): (r: Plan)
    ensures Predetermined(cfg, req) ==> r == ForwardTo([req.requestUri], st.Some?)
    ensures r.ForwardTo? ==> |r.targets| > 0 && (r.stateful ==> st.Some?) && (!cfg.stateful ==> |r.targets| == 1)
    ensures r.ForwardTo? && !Predetermined(cfg, req) ==>
              (req.verb == CANCEL && cfg.stateful ==> !r.stateful)
              && TargetKey(cfg, req).Key? && TargetKey(cfg, req).key.Some? && TargetKey(cfg, req).key.value in directory
              && r.targets == UrisOf(Targets(cfg, directory[TargetKey(cfg, req).key.value]))
    ensures r.CancelContext? ==> cfg.stateful && req.verb == CANCEL && st.Some? && cancelled == Some(r.invite) && r.invite in mapped
    ensures r.Answer? && (plugin.None? || plugin == Some(Declined)) ==>
              r.response.status in {404, 480, 500} && r.response == CreateResponse(r.response.status, req)
    ensures r.Answer? && r.response.status == 404 && (plugin.None? || plugin == Some(Declined)) ==>
              !remoteDown && TargetKey(cfg, req).Key? && TargetKey(cfg, req).key.Some? && TargetKey(cfg, req).key.value !in directory
  {
    if Predetermined(cfg, req) then ForwardTo([req.requestUri], st.Some?)
    else if cfg.stateful && req.verb == CANCEL && st.None? then PlanRaises
    else if cfg.stateful && req.verb == CANCEL && cancelled.Some? && cancelled.value in mapped then CancelContext(cancelled.value)
    else
      var mustBeStateless := cfg.stateful && req.verb == CANCEL;
      match plugin
      case Some(Answers(response)) => Answer(response)
      case Some(PluginFails) => Answer(CreateResponse(500, req))
      case _ =>
        match TargetKey(cfg, req)
        case NoToHeader => PlanRaises
        case Key(key) =>
          if remoteDown then Answer(CreateResponse(500, req))
          else if key.None? then PlanRaises
          else if key.value !in directory then Answer(CreateResponse(404, req))
          else if |directory[key.value]| == 0 then Answer(CreateResponse(480, req))
          else ForwardTo(UrisOf(Targets(cfg, directory[key.value])), st.Some? && !mustBeStateless)
  }

  // ---------------------------------------------------------------------
  // Admission of a request (the start of `processIncomingRequest`)

  /** How the start of `processIncomingRequest` ends. */
  datatype Admission =
    | Unreachable               // no location service: 500
    | Refused(v: Validation)    // `validateRequest` failed: its reply, a 407, or an exception
    | Reentered(next: Request)  // a strict router's request, handed back for processing again
    | Proceeds(next: Request)   // the preprocessed request, ready for target determination

  /**
   * The location service must answer, the request must pass validation, a
   * request from a strict router is rewritten and processed again, and any
   * other request has its routing preprocessed.
   */
  function Admit(cfg: Config, p: Provider, req: Request, reachable: bool, auth: AuthOutcome): (r: Admission)
    requires |p.points| > 0
  {
    if !reachable then Unreachable
    else
      var v := Validate(cfg, p, req, auth);
      if v != Passes then Refused(v)
      else match StrictRouted(p, req)
        case Some(next) => Reentered(next)
        case None => Proceeds(Preprocessed(cfg, p, req))
  }

  /**
   * Admission in terms of the rules of sections 16.3 and 16.4: a request is
   * admitted exactly when the service answers, it is valid and it does not
   * come from a strict router, and then with its routing preprocessed; a
   * strict router's request is re-entered only once valid, with the last
   * Route as its Request-URI.
   */
  lemma AdmitSpec(cfg: Config, p: Provider, req: Request, reachable: bool, auth: AuthOutcome)
    requires |p.points| > 0
    ensures var r := Admit(cfg, p, req, reachable, auth);
            && (r.Proceeds? <==> reachable && Validate(cfg, p, req, auth) == Passes && StrictRouted(p, req).None?)
            && (r.Proceeds? ==> r.next == Preprocessed(cfg, p, req) && r.next.vias == req.vias && r.next.verb == req.verb)
            && (r.Reentered? <==> reachable && Validate(cfg, p, req, auth) == Passes && StrictRouted(p, req).Some?)
            && (r.Reentered? ==> r.next.requestUri == req.routes[|req.routes| - 1] && |r.next.routes| == |req.routes| - 1)
            && (r.Refused? ==> reachable && r.v == Validate(cfg, p, req, auth) && r.v != Passes)
            && (r == Unreachable <==> !reachable)
  {
    var r := Admit(cfg, p, req, reachable, auth);
    if r.Reentered? {
      var sr := StrictRouted(p, req);
      assert sr == Some(r.next);
      assert |r.next.routes + [req.routes[|req.routes| - 1]]| == |req.routes|;
    }
  }

  /**
   * Strict routing undoes the rotation of item 6 of section 16.6: when the
   * previous hop treated this proxy (named by its address and port, without
   * `lr`) as a strict router, the request it sent is restored to the
   * Request-URI and routes it had before that hop.
   */
  lemma StrictRoutedUndoesNextHop(p: Provider, req: Request, uri: Uri, rest: seq<Uri>)
    requires |p.points| > 0
    ensures var own := HostPortUri(p.ip, p.points[0].port);
            var hop := NextHop(uri, [own] + rest);
            StrictRouted(p, req.(requestUri := hop.0, routes := hop.1)) == Some(req.(requestUri := uri, routes := rest))
  {
    var own := HostPortUri(p.ip, p.points[0].port);
    var routes := [own] + rest;
    assert !HasParam(own.params, "lr");
    assert routes[1..] == rest;
    var hop := NextHop(uri, routes);
    assert hop == (own, rest + [uri]);
    var n := |rest + [uri]|;
    assert (rest + [uri])[..n - 1] == rest;
  }

  /**
   * The loose-routing round trip: a request that comes back with the
   * Record-Route value the proxy added (section 16.6 item 4) as its first
   * Route loses that Route, and only it.
   */
  lemma OwnRecordRoutePopped(cfg: Config, p: Provider, req: Request, rest: seq<Uri>)
    requires |p.points| > 0 && p in cfg.providers && p.points[0].port != NO_PORT
    ensures PopOwnRoute(cfg, p, req.(routes := [RecordRouteOf(p)] + rest)) == req.(routes := rest)
  {
    var i :| 0 <= i < |cfg.providers| && cfg.providers[i] == p;
    assert Names(cfg.providers[i], p.hostname);
    assert ([RecordRouteOf(p)] + rest)[1..] == rest;
  }

  // ---------------------------------------------------------------------
  // Properties of the target decision (section 16.5)

  /**
   * A subscriber's registered contacts are where its requests go: every one
   * of them for a stateful proxy, on the server transaction unless it is a
   * CANCEL; the first one alone, statelessly, for a stateless proxy.
   */
  lemma RegisteredContactsAreTargets(cfg: Config, req: Request, st: Option<TxId>, cancelled: Option<TxId>, mapped: set<TxId>,
                                     plugin: Option<PluginReply>, directory: map<string, seq<ContactValue>>, key: string)
    requires !Predetermined(cfg, req) && (plugin.None? || plugin == Some(Declined))
    requires !(cfg.stateful && req.verb == CANCEL)
    requires TargetKey(cfg, req) == Key(Some(key)) && key in directory && |directory[key]| > 0
    ensures var r := Dispatch(cfg, req, st, cancelled, mapped, plugin, false, directory);
            && r.ForwardTo?
            && (cfg.stateful ==> r.targets == UrisOf(directory[key]) && r.stateful == st.Some?
                                 && forall c :: c in directory[key] ==> c.uri in r.targets)
            && (!cfg.stateful ==> r.targets == [directory[key][0].uri])
  {
    var r := Dispatch(cfg, req, st, cancelled, mapped, plugin, false, directory);
    if cfg.stateful {
      forall c | c in directory[key]
        ensures c.uri in r.targets
      {
        var i :| 0 <= i < |directory[key]| && directory[key][i] == c;
        assert r.targets[i] == c.uri;
      }
    } else {
      assert UrisOf(Targets(cfg, directory[key])) == [directory[key][0].uri] by {
        var t := Targets(cfg, directory[key]);
        assert |t| == 1 && t[0] == directory[key][0];
      }
    }
  }

  /**
   * A request whose target set is predetermined (section 16.5) goes to its
   * Request-URI alone: the location service, the plugins and the CANCEL
   * handling play no part.
   */
  lemma PredeterminedIgnoresLocation(cfg: Config, req: Request, st: Option<TxId>, cancelled: Option<TxId>, mapped: set<TxId>,
                                     plugin: Option<PluginReply>, remoteDown: bool, directory: map<string, seq<ContactValue>>,
                                     cancelled': Option<TxId>, mapped': set<TxId>, plugin': Option<PluginReply>, remoteDown': bool,
                                     directory': map<string, seq<ContactValue>>)
    requires Predetermined(cfg, req)
    ensures Dispatch(cfg, req, st, cancelled, mapped, plugin, remoteDown, directory)
            == Dispatch(cfg, req, st, cancelled', mapped', plugin', remoteDown', directory')
            == ForwardTo([req.requestUri], st.Some?)
  {
  }

  /**
   * Without a predetermined target a CANCEL the stateful proxy cannot match
   * is still relayed, but never on a client transaction: it is forwarded
   * statelessly like any other request (section 16.10).
   */
  lemma UnmatchedCancelIsStateless(cfg: Config, req: Request, st: Option<TxId>, cancelled: Option<TxId>, mapped: set<TxId>,
                                   plugin: Option<PluginReply>, remoteDown: bool, directory: map<string, seq<ContactValue>>)
    requires cfg.stateful && req.verb == CANCEL && !Predetermined(cfg, req)
    requires cancelled.None? || cancelled.value !in mapped
    ensures var r := Dispatch(cfg, req, st, cancelled, mapped, plugin, remoteDown, directory);
            !r.CancelContext? && (r.ForwardTo? ==> !r.stateful)
  {
  }
}
