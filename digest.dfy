/**
 * DigestServerAuthenticationMethod: the server side of HTTP Digest
 * authentication (RFC 2617) as the registrar and the proxy use it: nonce
 * generation and the check of a client's `response` parameter.
 *
 * The digest implementations are hash functions handed in by name; the
 * clock is a parameter of each nonce request and `Random.nextLong()` is a
 * fixed stream of values read through a counter.
 */
module Digest {
  import opened Common
  import opened Sip
  import opened SipUtils

  /**
   * The constructor's table: `MessageDigest.getInstance` for every name,
   * which fails (NoSuchAlgorithmException) when the provider lacks one.
   */
  function LoadAlgorithms(names: seq<string>, provider: map<string, HashFunction>): (r: Option<map<string, HashFunction>>)
    ensures r.None? <==> exists i :: 0 <= i < |names| && names[i] !in provider
    ensures r.Some? ==> forall n :: n in r.value <==> n in names
    ensures r.Some? ==> forall n :: n in r.value ==> n in provider && r.value[n] == provider[n]
  {
    if |names| == 0 then Some(map[])
    else if names[0] !in provider then None
    else match LoadAlgorithms(names[1..], provider)
      case None =>
        assert exists i :: 0 <= i < |names[1..]| && names[1..][i] !in provider;
        var i :| 0 <= i < |names[1..]| && names[1..][i] !in provider;
        assert names[i + 1] !in provider;
        None
      case Some(m) =>
        assert forall n :: n in names <==> n == names[0] || n in names[1..];
        Some(m[names[0] := provider[names[0]]])
  }

  /**
   * How `doAuthenticate` ends: true, false, the NullPointerException of a
   * missing `response`, or the NoSuchElementException of asking an empty
   * table for its preferred algorithm.
   */
  datatype Verdict = Authorized | Unauthorized | NullResponse | NoPreferredAlgorithm

  /** RFC 2617 section 3.2.1: H(data) is the lowercase hex of the digest. */
  function H(h: HashFunction, data: string): (r: string)
    ensures IsLowerHex(r) && |r| == 2 * |h(data)|
  {
    Hex(h(data))
  }

  /** RFC 2617 section 3.2.1: KD(secret, data) = H(secret ":" data). */
  function KD(h: HashFunction, secret: string, data: string): string {
    H(h, secret + ":" + data)
  }

  /**
   * The request-digest of RFC 2617 section 3.2.2.1 in the form this server
   * expects: without `nc` and `qop`, with the client nonce between the nonce
   * and H(A2) when there is one.
   */
  function RequestDigest(h: HashFunction, username: string, realm: string, password: string,
                         verb: string, digestUri: string, nonce: string, cnonce: Option<string>): string
  {
    var a1 := username + ":" + realm + ":" + password;
    var a2 := verb + ":" + digestUri;
    KD(h, H(h, a1), nonce + (match cnonce case Some(c) => ":" + c case None => "") + ":" + H(h, a2))
  }

  /** A null value concatenated to a Java string appears as "null". */
  function Text(s: Option<string>): string {
    match s case Some(t) => t case None => "null"
  }

  class DigestServerAuthenticationMethod {
    const defaultRealm: string
    /** The algorithms by name. */
    const algorithms: map<string, HashFunction>
    /** The names in the order the hash table enumerates them; its order is not specified. */
    const enumeration: seq<string>
    /** The successive values `random.nextLong()` returns. */
    const randomStream: nat -> int
    /** How many values have been drawn. */
    var draws: nat

    ghost predicate Valid()
    {
      forall n :: n in enumeration <==> n in algorithms
    }

    constructor (defaultRealm: string, algorithms: map<string, HashFunction>, enumeration: seq<string>,
                 randomStream: nat -> int)
      requires forall n :: n in enumeration <==> n in algorithms
      ensures Valid() && draws == 0
      ensures this.defaultRealm == defaultRealm && this.algorithms == algorithms
      ensures this.enumeration == enumeration && this.randomStream == randomStream
    {
      this.defaultRealm := defaultRealm;
      this.algorithms := algorithms;
      this.enumeration := enumeration;
      this.randomStream := randomStream;
      draws := 0;
    }

    /**
     * `getPreferredAlgorithm`: the first name the table enumerates; an empty
     * table has none (`nextElement` fails).
     */
    function GetPreferredAlgorithm(): (r: Option<string>)
      requires Valid()
      ensures r.None? <==> algorithms == map[]
      ensures r.Some? ==> r.value in algorithms
    {
      if |enumeration| == 0 then
        assert forall n :: n !in algorithms;
        None
      else
        assert enumeration[0] in algorithms;
        Some(enumeration[0])
    }

    /**
     * `generateNonce`: "" for an unknown algorithm (no random value is drawn);
     * otherwise the hex digest of the time followed by the next random value.
     */
    method GenerateNonce(algorithm: string, now: int) returns (nonce: string)
      modifies this`draws
      ensures algorithm !in algorithms ==> nonce == "" && draws == old(draws)
      ensures algorithm in algorithms ==>
                nonce == NonceOf(algorithms[algorithm], now, randomStream(old(draws))) && draws == old(draws) + 1
    {
      if algorithm !in algorithms {
        return "";
      }
      var messageDigest := algorithms[algorithm];
      var pad := randomStream(draws);
      draws := draws + 1;
      var nonceString := IntToString(now) + IntToString(pad);
      nonce := ToHexString(messageDigest(nonceString));
    }

    /** The algorithm a credential names, or the preferred one when it names none. */
    function ChosenAlgorithm(creds: Credentials): (r: Option<string>)
      requires Valid()
      ensures creds.algorithm.Some? ==> r == creds.algorithm
    {
      if creds.algorithm.Some? then creds.algorithm else GetPreferredAlgorithm()
    }

    /**
     * `doAuthenticate`: the credential's user name must be `user`, it must
     * carry a digest URI and an algorithm this server knows; the request is
     * then authorized exactly when `response` equals the request-digest over
     * the credential's realm (the default realm when absent), the upper-cased
     * request method and the URI's text.
     */
    function DoAuthenticate(verb: string, creds: Credentials, user: string, password: string): (r: Verdict)
      requires Valid()
      ensures r == Authorized <==>
                creds.username == Some(user) && creds.uri.Some?
                && ChosenAlgorithm(creds).Some? && ChosenAlgorithm(creds).value in algorithms
                && creds.response == Some(RequestDigest(algorithms[ChosenAlgorithm(creds).value], user,
                     RealmOf(creds), password, ToUpper(verb), UriString(creds.uri.value), Text(creds.nonce), creds.cnonce))
      ensures r == NullResponse ==> creds.response.None?
      ensures r == NoPreferredAlgorithm <==>
                creds.username == Some(user) && creds.uri.Some? && creds.algorithm.None? && algorithms == map[]
    {
      if creds.username.None? || creds.username.value != user then Unauthorized
      else
        var realm := RealmOf(creds);
        if creds.uri.None? then Unauthorized
        else
          var algorithm := ChosenAlgorithm(creds);
          if algorithm.None? then NoPreferredAlgorithm
          else if algorithm.value !in algorithms then Unauthorized
          else
            var messageDigest := algorithms[algorithm.value];
            var a1 := creds.username.value + ":" + realm + ":" + password;
            var a2 := ToUpper(verb) + ":" + UriString(creds.uri.value);
            var ha1 := Hex(messageDigest(a1));
            var ha2 := Hex(messageDigest(a2));
            var kd := ha1 + ":" + Text(creds.nonce);
            var kd' := if creds.cnonce.Some? then kd + ":" + creds.cnonce.value else kd;
            var kd'' := kd' + ":" + ha2;
            var mdString := Hex(messageDigest(kd''));
            KdLayout(ha1, Text(creds.nonce), creds.cnonce, ha2);
            if creds.response.None? then NullResponse
            else if mdString == creds.response.value then Authorized
            else Unauthorized
    }

    /** The realm a credential names, or the default realm. */
    function RealmOf(creds: Credentials): string
    {
      match creds.realm case Some(realm) => realm case None => defaultRealm
    }
  }

  /** The nonce as the digest of the decimal time followed by the decimal pad. */
  function NonceOf(h: HashFunction, now: int, pad: int): string {
    Hex(h(IntToString(now) + IntToString(pad)))
  }

  /** A nonce is lowercase hex, twice as long as the digest, and decodes back to the digest. */
  lemma NonceShape(h: HashFunction, now: int, pad: int)
    ensures IsLowerHex(NonceOf(h, now, pad))
    ensures |NonceOf(h, now, pad)| == 2 * |h(IntToString(now) + IntToString(pad))|
    ensures UnHex(NonceOf(h, now, pad)) == h(IntToString(now) + IntToString(pad))
  {
    UnHexOfHex(h(IntToString(now) + IntToString(pad)));
  }

  /** The string the code builds step by step is the KD data of the request-digest. */
  lemma KdLayout(ha1: string, nonce: string, cnonce: Option<string>, ha2: string)
    ensures (if cnonce.Some? then ha1 + ":" + nonce + ":" + cnonce.value else ha1 + ":" + nonce) + ":" + ha2
         == ha1 + ":" + (nonce + (match cnonce case Some(c) => ":" + c case None => "") + ":" + ha2)
  {
    match cnonce
    case Some(c) =>
      calc {
        ha1 + ":" + nonce + ":" + c + ":" + ha2;
        { ConcatAssoc(ha1 + ":", nonce, ":" + c); ConcatAssoc(ha1 + ":" + nonce, ":", c); }
        ha1 + ":" + (nonce + (":" + c)) + ":" + ha2;
        { ConcatAssoc(ha1 + ":", nonce + (":" + c), ":" + ha2); ConcatAssoc(ha1, ":", nonce + (":" + c) + ":" + ha2); }
        ha1 + ":" + (nonce + (":" + c) + ":" + ha2);
      }
    case None =>
      ConcatAssoc(ha1 + ":", nonce, ":" + ha2);
      ConcatAssoc(ha1, ":", nonce + ":" + ha2);
  }

  lemma UpperIdempotent(s: string)
    ensures ToUpper(ToUpper(s)) == ToUpper(s)
  {
  }

  /** The request method is compared in upper case: its letter case never matters. */
  lemma MethodCaseIgnored(a: DigestServerAuthenticationMethod, verb: string, creds: Credentials, user: string, password: string)
    requires a.Valid()
    ensures a.DoAuthenticate(ToUpper(verb), creds, user, password) == a.DoAuthenticate(verb, creds, user, password)
  {
    UpperIdempotent(verb);
  }

  /** A credential without a realm is checked against the default realm. */
  lemma DefaultRealm(a: DigestServerAuthenticationMethod, verb: string, creds: Credentials, user: string, password: string)
    requires a.Valid() && creds.realm.None?
    ensures a.DoAuthenticate(verb, creds, user, password)
         == a.DoAuthenticate(verb, creds.(realm := Some(a.defaultRealm)), user, password)
  {
  }

  /**
   * A client that knows the password and answers with the request-digest of
   * RFC 2617 (no qop) over the upper-case method is authorized.
   */
  lemma HonestClientAuthorized(a: DigestServerAuthenticationMethod, verb: string, user: string, password: string,
                               realm: string, nonce: string, digestUri: Uri)
    requires a.Valid() && a.GetPreferredAlgorithm().Some?
    ensures
      var h := a.algorithms[a.GetPreferredAlgorithm().value];
      var response := RequestDigest(h, user, realm, password, ToUpper(verb), UriString(digestUri), nonce, None);
      a.DoAuthenticate(verb, Credentials(Some(user), Some(realm), Some(nonce), Some(digestUri), Some(response), None, None),
                       user, password) == Authorized
  {
  }

  /** Without a digest URI or under another user name nothing is authorized. */
  lemma RejectsWrongUser(a: DigestServerAuthenticationMethod, verb: string, creds: Credentials, user: string, password: string)
    requires a.Valid() && (creds.username != Some(user) || creds.uri.None?)
    ensures a.DoAuthenticate(verb, creds, user, password) == Unauthorized
  {
  }
}
