/**
 * SipUtils: hexadecimal rendering of digests, Via branch generation, URI
 * canonicalisation and the key under which the location service files a
 * subscriber (RFC 3261 section 10.3 step 5).
 */
module SipUtils {
  import opened Common
  import opened Sip

  /** RFC 3261 section 8.1.1.7: branches of compliant elements begin with this cookie. */
  const BRANCH_MAGIC_COOKIE: string := "z9hG4bK"
  const NO_MD5_BRANCH: string := "NoSuchAlgorithmExceptionMD5"

  const HEX_DIGITS: string := "0123456789abcdef"

  /** A message digest (MD5 and the like), applied to the bytes of a string; left uninterpreted. */
  type HashFunction = string -> seq<JByte>

  /** `(b >> 4) & 0x0F` on a sign-extended Java byte. */
  function HighNibble(b: JByte): (r: int)
    ensures 0 <= r < 16
  {
    (b / 16) % 16
  }

  /** `b & 0x0F` on a sign-extended Java byte. */
  function LowNibble(b: JByte): (r: int)
    ensures 0 <= r < 16
  {
    b % 16
  }

  predicate IsLowerHex(s: string) {
    forall i :: 0 <= i < |s| ==> s[i] in HEX_DIGITS
  }

  /** The hexadecimal form of a byte string, two lowercase digits per byte, high nibble first. */
  function Hex(b: seq<JByte>): (r: string)
    ensures |r| == 2 * |b|
    ensures forall i :: 0 <= i < |b| ==>
              r[2 * i] == HEX_DIGITS[HighNibble(b[i])] && r[2 * i + 1] == HEX_DIGITS[LowNibble(b[i])]
    ensures IsLowerHex(r)
  {
    if |b| == 0 then ""
    else
      var rest := Hex(b[1..]);
      var r := [HEX_DIGITS[HighNibble(b[0])], HEX_DIGITS[LowNibble(b[0])]] + rest;
      assert forall i :: 1 <= i < |b| ==> r[2 * i] == rest[2 * (i - 1)] && b[i] == b[1..][i - 1];
      r
  }

  /** `toHexString`: fill a char array of length 2n through a running position. */
  method ToHexString(b: seq<JByte>) returns (s: string)
    ensures s == Hex(b)
  {
    var c := new char[|b| * 2];
    var pos := 0;
    for i := 0 to |b|
      invariant pos == 2 * i
      invariant forall k :: 0 <= k < i ==>
                  c[2 * k] == HEX_DIGITS[HighNibble(b[k])] && c[2 * k + 1] == HEX_DIGITS[LowNibble(b[k])]
    {
      c[pos] := HEX_DIGITS[HighNibble(b[i])];
      pos := pos + 1;
      c[pos] := HEX_DIGITS[LowNibble(b[i])];
      pos := pos + 1;
    }
    s := c[..];
    var h := Hex(b);
    forall j | 0 <= j < |s|
      ensures s[j] == h[j]
    {
      var k := j / 2;
      if j == 2 * k {
        assert s[j] == c[2 * k] == HEX_DIGITS[HighNibble(b[k])];
      } else {
        assert j == 2 * k + 1;
        assert s[j] == c[2 * k + 1] == HEX_DIGITS[LowNibble(b[k])];
      }
    }
  }

  /** The value of a lowercase hex digit. */
  function HexValue(c: char): (v: int)
    ensures c in HEX_DIGITS ==> 0 <= v < 16 && HEX_DIGITS[v] == c
  {
    if '0' <= c <= '9' then c as int - '0' as int
    else if 'a' <= c <= 'f' then c as int - 'a' as int + 10
    else 0
  }

  lemma HexValueOfDigit(d: int)
    requires 0 <= d < 16
    ensures HexValue(HEX_DIGITS[d]) == d
  {
  }

  /** An unsigned byte value read as a two's complement Java byte. */
  function SignedByte(v: int): JByte
    requires 0 <= v < 256
  {
    if v >= 128 then v - 256 else v
  }

  /** Reading a hex string back into Java bytes, two digits per byte. */
  function UnHex(s: string): (b: seq<JByte>)
  {
    if |s| < 2 then []
    else [SignedByte((16 * HexValue(s[0]) + HexValue(s[1])) % 256)] + UnHex(s[2..])
  }

  /** The two nibbles of a byte are its unsigned value, and that value read as signed is the byte. */
  lemma NibblesOfByte(b: JByte)
    ensures 16 * HighNibble(b) + LowNibble(b) == (b + 256) % 256
    ensures SignedByte((16 * HighNibble(b) + LowNibble(b)) % 256) == b
  {
    var q, r := b / 16, b % 16;
    assert b == 16 * q + r && 0 <= r < 16;
    assert -8 <= q < 8;
  }

  /** Reading back the two digits of one byte in front of any even-length rest. */
  lemma UnHexPair(c: JByte, rest: string)
    ensures UnHex([HEX_DIGITS[HighNibble(c)], HEX_DIGITS[LowNibble(c)]] + rest) == [c] + UnHex(rest)
  {
    var hi, lo := HighNibble(c), LowNibble(c);
    var h := [HEX_DIGITS[hi], HEX_DIGITS[lo]] + rest;
    HexValueOfDigit(hi);
    HexValueOfDigit(lo);
    assert HexValue(h[0]) == hi && HexValue(h[1]) == lo;
    var x := (16 * HexValue(h[0]) + HexValue(h[1])) % 256;
    assert x == (16 * hi + lo) % 256;
    NibblesOfByte(c);
    assert SignedByte(x) == c;
    assert h[2..] == rest;
    assert UnHex(h) == [SignedByte(x)] + UnHex(h[2..]);
  }

  /** `Hex` loses nothing: its output reads back to the same bytes. */
  lemma {:induction false} UnHexOfHex(b: seq<JByte>)
    ensures UnHex(Hex(b)) == b
  {
    if |b| > 0 {
      var rest := Hex(b[1..]);
      assert Hex(b) == [HEX_DIGITS[HighNibble(b[0])], HEX_DIGITS[LowNibble(b[0])]] + rest;
      UnHexPair(b[0], rest);
      UnHexOfHex(b[1..]);
      assert b == [b[0]] + b[1..];
    }
  }

  /** Hence different digests never render to the same string. */
  lemma HexInjective(a: seq<JByte>, b: seq<JByte>)
    requires Hex(a) == Hex(b)
    ensures a == b
  {
    UnHexOfHex(a);
    UnHexOfHex(b);
  }

  /**
   * `generateBranchId`: the cookie followed by the hex digest of a random
   * number below 10000 and the current time in milliseconds; when no MD5
   * implementation exists, a fixed text follows the cookie instead.
   */
  function BranchId(md5: Option<HashFunction>, randomValue: int, now: int): (r: string)
    ensures StartsWith(r, BRANCH_MAGIC_COOKIE)
    ensures md5.Some? ==> IsLowerHex(r[|BRANCH_MAGIC_COOKIE|..])
                          && |r| == |BRANCH_MAGIC_COOKIE| + 2 * |md5.value(IntToString(randomValue) + IntToString(now))|
    ensures md5.None? ==> r == BRANCH_MAGIC_COOKIE + NO_MD5_BRANCH
  {
    var seed := IntToString(randomValue) + IntToString(now);
    var hex := match md5 case Some(h) => Hex(h(seed)) case None => NO_MD5_BRANCH;
    var r := BRANCH_MAGIC_COOKIE + hex;
    assert r[|BRANCH_MAGIC_COOKIE|..] == hex;
    r
  }

  /** `getCanonicalizedURI`: a SIP URI loses all its URI parameters; any other URI is kept. */
  function Canonicalize(u: Uri): (r: Uri)
    ensures r.IsSip() == u.IsSip()
    ensures u.SipUri? ==> r.params == [] && r == u.(params := [])
    ensures !u.SipUri? ==> r == u
  {
    if u.SipUri? then u.(params := []) else u
  }

  lemma CanonicalizeIdempotent(u: Uri)
    ensures Canonicalize(Canonicalize(u)) == Canonicalize(u)
  {
  }

  /** Two SIP URIs have the same canonical form exactly when they differ at most in their parameters. */
  lemma CanonicalizeEqual(u: Uri, v: Uri)
    requires u.SipUri? && v.SipUri?
    ensures Canonicalize(u) == Canonicalize(v) <==> u.(params := []) == v.(params := [])
  {
  }

  /** The `scheme:[user@]host` text the key of a SIP URI consists of. */
  function AorText(secure: bool, user: Option<string>, host: string): string {
    SchemePrefix(secure) + UserPart(user) + host
  }

  function SchemePrefix(secure: bool): string {
    if secure then "sips:" else "sip:"
  }

  function UserPart(user: Option<string>): string {
    match user
    case None => ""
    case Some(name) => name + "@"
  }

  /**
   * `getKeyToLocationService(URI)`: canonicalise, then drop password, port and
   * header fields, and take the string form; a non-SIP URI has no key.
   */
  function LocationKey(u: Uri): (r: Option<string>)
    ensures r.None? <==> !u.IsSip()
    ensures u.SipUri? ==> r == Some(AorText(u.secure, u.user, u.host))
  {
    var c := Canonicalize(u);
    if c.SipUri? then
      var stripped := c.(password := None, port := NO_PORT, headers := []);
      var userPart := UserPart(c.user);
      assert ParamsString(stripped.params) == "" && HeadersString(stripped.headers, true) == "";
      var prefix := SchemePrefix(c.secure);
      assert stripped.Scheme() + ":" == prefix;
      assert UriString(stripped) == prefix + userPart + c.host + "" + "" + "";
      assert prefix + userPart + c.host + "" + "" + "" == prefix + userPart + c.host;
      assert AorText(c.secure, c.user, c.host) == prefix + userPart + c.host;
      assert c.secure == u.secure && c.user == u.user && c.host == u.host;
      Some(UriString(stripped))
    else None
  }

  /** URI parameters, password, port and header fields do not take part in the key. */
  lemma KeyIgnoresDecorations(u: Uri, v: Uri)
    requires u.SipUri? && v.SipUri?
    requires u.secure == v.secure && u.user == v.user && u.host == v.host
    ensures LocationKey(u) == LocationKey(v)
  {
  }

  /**
   * The host is compared as written: SIP URIs whose hosts differ in any
   * way, letter case included, have different keys.
   */
  lemma KeyIsCaseSensitive(u: Uri, v: Uri)
    requires u.SipUri? && v.SipUri?
    requires '@' !in u.host && '@' !in v.host
    requires u.user.Some? ==> '@' !in u.user.value
    requires v.user.Some? ==> '@' !in v.user.value
    requires u.host != v.host
    ensures LocationKey(u) != LocationKey(v)
  {
    if LocationKey(u) == LocationKey(v) {
      KeyDeterminesAor(u, v);
    }
  }

  lemma {:induction false} IndexOfSeparator(a: string, b: string, sep: char)
    requires sep !in a
    ensures IndexOf(a + [sep] + b, sep) == |a|
  {
    if |a| > 0 {
      assert (a + [sep] + b)[1..] == a[1..] + [sep] + b;
      IndexOfSeparator(a[1..], b, sep);
    }
  }

  /** Splitting at the first separator is unique when the left parts hold no separator. */
  lemma SplitAtFirst(a: string, b: string, c: string, d: string, sep: char)
    requires sep !in a && sep !in c
    requires a + [sep] + b == c + [sep] + d
    ensures a == c && b == d
  {
    var s := a + [sep] + b;
    IndexOfSeparator(a, b, sep);
    IndexOfSeparator(c, d, sep);
    assert |a| == |c|;
    assert a == s[..|a|] && c == s[..|c|];
    assert b == s[|a| + 1..] && d == s[|c| + 1..];
  }

  lemma SchemePrefixDetermines(a: bool, x: string, b: bool, y: string)
    requires SchemePrefix(a) + x == SchemePrefix(b) + y
    ensures a == b && x == y
  {
    var s := SchemePrefix(a) + x;
    assert s[3] == (if a then 's' else ':');
    assert s[3] == (if b then 's' else ':');
    assert x == s[|SchemePrefix(a)|..];
  }

  lemma UserPartDetermines(a: Option<string>, h: string, b: Option<string>, k: string)
    requires '@' !in h && '@' !in k
    requires a.Some? ==> '@' !in a.value
    requires b.Some? ==> '@' !in b.value
    requires UserPart(a) + h == UserPart(b) + k
    ensures a == b && h == k
  {
    var s := UserPart(a) + h;
    assert a.Some? <==> '@' in s by {
      if a.Some? { assert s[|a.value|] == '@'; }
    }
    assert b.Some? <==> '@' in s by {
      if b.Some? { assert s[|b.value|] == '@'; }
    }
    if a.Some? {
      SplitAtFirst(a.value, h, b.value, k, '@');
    } else {
      assert UserPart(a) + h == h && UserPart(b) + k == k;
    }
  }

  /**
   * Conversely, when neither user nor host contains '@' (as in any SIP URI
   * whose user part is escaped), the key determines scheme, user and host.
   */
  lemma KeyDeterminesAor(u: Uri, v: Uri)
    requires u.SipUri? && v.SipUri?
    requires '@' !in u.host && '@' !in v.host
    requires u.user.Some? ==> '@' !in u.user.value
    requires v.user.Some? ==> '@' !in v.user.value
    requires LocationKey(u) == LocationKey(v)
    ensures u.secure == v.secure && u.user == v.user && u.host == v.host
  {
    assert AorText(u.secure, u.user, u.host) == AorText(v.secure, v.user, v.host);
    assert AorText(u.secure, u.user, u.host) == SchemePrefix(u.secure) + (UserPart(u.user) + u.host);
    assert AorText(v.secure, v.user, v.host) == SchemePrefix(v.secure) + (UserPart(v.user) + v.host);
    SchemePrefixDetermines(u.secure, UserPart(u.user) + u.host, v.secure, UserPart(v.user) + v.host);
    UserPartDetermines(u.user, u.host, v.user, v.host);
  }

  /** `getKeyToLocationService(Request)`: the key of the To URI; none without a To header. */
  function RequestKey(req: Request): (r: Option<string>)
    ensures req.to.None? ==> r.None?
    ensures req.to.Some? ==> (r.Some? <==> req.to.value.uri.IsSip())
    ensures req.to.Some? && req.to.value.uri.SipUri? ==>
              r == Some(AorText(req.to.value.uri.secure, req.to.value.uri.user, req.to.value.uri.host))
  {
    match req.to
    case None => None
    case Some(address) => LocationKey(address.uri)
  }
}
