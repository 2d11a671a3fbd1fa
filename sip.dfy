/**
 * The SIP message vocabulary the core works on. These records stand for the
 * JAIN-SIP objects (URIs, headers, requests, responses, transaction states);
 * parsing and the stack's own serialisation are not modelled, except for the
 * string forms of URIs and Via headers that the core hashes or compares.
 */
module Sip {
  import opened Common

  /** A URI parameter `;name=value` (a flag parameter such as `lr` has value ""). */
  datatype UriParam = UriParam(name: string, value: string)

  /** A port of -1 means "no port in the URI", as JAIN-SIP's `getPort()` reports it. */
  const NO_PORT: int := -1
  const DEFAULT_SIP_PORT: int := 5060

  datatype Uri =
    | SipUri(secure: bool, user: Option<string>, password: Option<string>, host: string,
             port: int, params: seq<UriParam>, headers: seq<UriParam>)
    | OtherUri(scheme: string, rest: string)
  {
    /** JAIN-SIP's `isSipURI()`: true for sip: and sips: URIs. */
    predicate IsSip() { SipUri? }

    function Scheme(): string {
      match this
      case SipUri(secure, _, _, _, _, _, _) => if secure then "sips" else "sip"
      case OtherUri(scheme, _) => scheme
    }
  }

  /** The plain `sip:<host>:<port>` URI, as built with `createSipURI(null, host)` and `setPort`. */
  function HostPortUri(host: string, port: int): Uri {
    SipUri(false, None, None, host, port, [], [])
  }

  predicate HasParam(ps: seq<UriParam>, name: string) {
    exists i :: 0 <= i < |ps| && ps[i].name == name
  }

  /** The value of the first parameter called `name`, if any. */
  function ParamValue(ps: seq<UriParam>, name: string): (r: Option<string>)
    ensures r.Some? <==> HasParam(ps, name)
    ensures r.Some? ==> exists i :: 0 <= i < |ps| && ps[i] == UriParam(name, r.value)
  {
    if |ps| == 0 then None
    else if ps[0].name == name then Some(ps[0].value)
    else
      var r := ParamValue(ps[1..], name);
      assert forall i :: 0 <= i < |ps| - 1 ==> ps[1..][i] == ps[i + 1];
      r
  }

  /** `removeParameter(name)`: drop every parameter called `name`, keep the rest in order. */
  function RemoveParam(ps: seq<UriParam>, name: string): (r: seq<UriParam>)
    ensures !HasParam(r, name)
    ensures forall p :: p in r <==> p in ps && p.name != name
  {
    if |ps| == 0 then []
    else if ps[0].name == name then RemoveParam(ps[1..], name)
    else [ps[0]] + RemoveParam(ps[1..], name)
  }

  function MAddrParam(u: Uri): Option<string> {
    if u.SipUri? then ParamValue(u.params, "maddr") else None
  }

  function ParamsString(ps: seq<UriParam>): string {
    if |ps| == 0 then ""
    else ";" + ps[0].name + (if ps[0].value == "" then "" else "=" + ps[0].value) + ParamsString(ps[1..])
  }

  function HeadersString(hs: seq<UriParam>, first: bool): string {
    if |hs| == 0 then ""
    else (if first then "?" else "&") + hs[0].name + "=" + hs[0].value + HeadersString(hs[1..], false)
  }

  /** The textual form of a URI (RFC 3261 section 19.1.1 layout). */
  function UriString(u: Uri): string {
    match u
    case SipUri(_, user, password, host, port, params, headers) =>
      u.Scheme() + ":"
      + (match user
         case None => ""
         case Some(name) => name + (if password.Some? then ":" + password.value else "") + "@")
      + host
      + (if port == NO_PORT then "" else ":" + IntToString(port))
      + ParamsString(params)
      + HeadersString(headers, true)
    case OtherUri(scheme, rest) => scheme + ":" + rest
  }

  /** A name-address header value with its `tag` parameter (To, From). */
  datatype Address = Address(uri: Uri, tag: Option<string>)

  /** A Via header: sent-by host and port (-1 when absent), transport, branch parameter. */
  datatype Via = Via(host: string, port: int, transport: string, branch: Option<string>)

  function ViaString(v: Via): string {
    "SIP/2.0/" + ToUpper(v.transport) + " " + v.host
    + (if v.port == NO_PORT then "" else ":" + IntToString(v.port))
    + (match v.branch case None => "" case Some(b) => ";branch=" + b)
  }

  /** The `expires` value of a Contact header that has no `expires` parameter. */
  const NO_EXPIRES: int := -1

  /** A Contact header value: either `*` or an address with its `expires` parameter (NO_EXPIRES when absent). */
  datatype ContactValue = ContactValue(wildcard: bool, uri: Uri, expires: int)

  /** The credentials of an Authorization or Proxy-Authorization header. */
  datatype Credentials = Credentials(
    username: Option<string>, realm: Option<string>, nonce: Option<string>,
    uri: Option<Uri>, response: Option<string>, algorithm: Option<string>,
    cnonce: Option<string>)

  /** A WWW-Authenticate or Proxy-Authenticate challenge. */
  datatype Challenge = Challenge(
    scheme: string, realm: string, nonce: string, opaqueValue: string, stale: bool, algorithm: string)

  datatype Request = Request(
    verb: string,
    requestUri: Uri,
    to: Option<Address>,
    from: Option<Address>,
    callId: string,
    cseq: int,
    vias: seq<Via>,
    routes: seq<Uri>,
    recordRoutes: seq<Uri>,
    maxForwards: Option<int>,
    proxyRequire: Option<string>,
    contacts: seq<ContactValue>,
    expires: Option<int>,
    authorization: Option<Credentials>,
    proxyAuthorization: Option<Credentials>,
    contentLength: Option<int>,
    rawContentSize: nat)

  datatype Response = Response(
    status: int,
    reason: Option<string>,
    vias: seq<Via>,
    to: Option<Address>,
    from: Option<Address>,
    callId: string,
    cseq: int,
    cseqMethod: string,
    contacts: seq<ContactValue>,
    wwwAuthenticate: seq<Challenge>,
    proxyAuthenticate: seq<Challenge>,
    unsupported: Option<string>,
    hasDate: bool)

  /** `MessageFactory.createResponse(code, request)`: the dialog headers and Vias are copied. */
  function CreateResponse(code: int, req: Request): (r: Response)
    ensures r.status == code && r.vias == req.vias && r.callId == req.callId
    ensures r.wwwAuthenticate == [] && r.proxyAuthenticate == [] && r.contacts == []
  {
    Response(code, None, req.vias, req.to, req.from, req.callId, req.cseq, req.verb,
             [], [], [], None, false)
  }

  /**
   * Status classes of RFC 3261 section 7.2. A final response is one of
   * classes 2 to 6, as the stack's `isFinalResponse` tests.
   */
  predicate IsFinal(code: int) { 200 <= code < 700 }
  function StatusClass(code: int): int { code / 100 }

  const INVITE: string := "INVITE"
  const ACK: string := "ACK"
  const CANCEL: string := "CANCEL"
  const REGISTER: string := "REGISTER"

  /** JAIN-SIP transaction states, with the stack's integer order. */
  datatype TxState = Calling | Trying | Proceeding | Completed | Confirmed | Terminated
  {
    function Value(): int {
      match this
      case Calling => 0
      case Trying => 1
      case Proceeding => 2
      case Completed => 3
      case Confirmed => 4
      case Terminated => 5
    }
  }

  /** Transactions are identified by the handles the stack gives out. */
  type TxId = nat
}
