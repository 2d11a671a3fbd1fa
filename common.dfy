/**
 * Shared vocabulary of the model: optional values, Java bytes and 32-bit
 * integers, and the few java.lang.String operations the core relies on.
 */
module Common {

  datatype Option<T> = None | Some(value: T)

  /** A Java `byte`: signed, two's complement. */
  type JByte = x: int | -128 <= x < 128

  const INT32_MIN: int := -0x8000_0000
  const INT32_MAX: int := 0x7FFF_FFFF

  predicate IsInt32(x: int) { INT32_MIN <= x <= INT32_MAX }

  /** Java's `(int)` narrowing of a `long`: keep the low 32 bits, two's complement. */
  function ToInt32(x: int): (r: int)
    ensures IsInt32(r)
    ensures (r - x) % 0x1_0000_0000 == 0
    ensures IsInt32(x) ==> r == x
  {
    (x - INT32_MIN) % 0x1_0000_0000 + INT32_MIN
  }

  /** Java's integer division `a / b`, which truncates toward zero. */
  function JavaDiv(a: int, b: int): (q: int)
    requires b != 0
    ensures Abs(a - q * b) < Abs(b)
    ensures a - q * b == 0 || (a - q * b < 0 <==> a < 0)
    ensures a >= 0 && b > 0 ==> q == a / b
  {
    if (a >= 0) == (b > 0) then Abs(a) / Abs(b) else -(Abs(a) / Abs(b))
  }

  function Abs(x: int): (r: nat)
    ensures r == x || r == -x
  {
    if x < 0 then -x else x
  }

  function Max(a: int, b: int): (r: int)
    ensures r >= a && r >= b && (r == a || r == b)
  {
    if a >= b then a else b
  }

  function Min(a: int, b: int): (r: int)
    ensures r <= a && r <= b && (r == a || r == b)
  {
    if a <= b then a else b
  }

  predicate StartsWith(s: string, prefix: string) {
    |prefix| <= |s| && s[..|prefix|] == prefix
  }

  /** Concatenation regrouped; stated once so that long string proofs need not rediscover it. */
  lemma ConcatAssoc<T>(a: seq<T>, b: seq<T>, c: seq<T>)
    ensures (a + b) + c == a + (b + c)
  {
  }

  /** `s` lists what `f` yields at `0` to `|s| - 1`, none of them missing. */
  ghost predicate Agrees<T>(f: nat -> Option<T>, s: seq<T>)
  {
    forall k :: 0 <= k < |s| ==> f(k) == Some(s[k])
  }

  /** The next value of `f` extends such a list by one. */
  lemma AgreesSnoc<T>(f: nat -> Option<T>, s: seq<T>, x: T)
    requires Agrees(f, s) && f(|s|) == Some(x)
    ensures Agrees(f, s + [x])
  {
    var longer := s + [x];
    forall k | 0 <= k < |longer|
      ensures f(k) == Some(longer[k])
    {
      if k < |s| {
        assert longer[k] == s[k];
      }
    }
  }

  /** A second update of one key overrides the first. */
  lemma UpdateTwice<K, V>(m: map<K, V>, k: K, a: V, b: V)
    ensures m[k := a][k := b] == m[k := b]
  {
  }

  /** `String.indexOf(char)`: the first index of `c`, or -1. */
  function IndexOf(s: string, c: char): (r: int)
    ensures r == -1 <==> c !in s
    ensures r != -1 ==> 0 <= r < |s| && s[r] == c && c !in s[..r]
  {
    if |s| == 0 then -1
    else if s[0] == c then 0
    else
      var k := IndexOf(s[1..], c);
      assert s[1..][..(if k < 0 then 0 else k)] == s[1..1 + (if k < 0 then 0 else k)];
      if k == -1 then -1 else k + 1
  }

  /** ASCII case mapping (the model does not cover Unicode case rules). */
  function LowerChar(c: char): char {
    if 'A' <= c <= 'Z' then (c as int + 32) as char else c
  }

  function UpperChar(c: char): char {
    if 'a' <= c <= 'z' then (c as int - 32) as char else c
  }

  function ToLower(s: string): (r: string)
    ensures |r| == |s| && forall i :: 0 <= i < |s| ==> r[i] == LowerChar(s[i])
  {
    if |s| == 0 then [] else [LowerChar(s[0])] + ToLower(s[1..])
  }

  function ToUpper(s: string): (r: string)
    ensures |r| == |s| && forall i :: 0 <= i < |s| ==> r[i] == UpperChar(s[i])
  {
    if |s| == 0 then [] else [UpperChar(s[0])] + ToUpper(s[1..])
  }

  /** `String.equalsIgnoreCase`, restricted to ASCII letters. */
  predicate EqualsIgnoreCase(a: string, b: string) {
    ToLower(a) == ToLower(b)
  }

  /** A string without upper-case letters is its own lower case. */
  lemma LowerOfLower(s: string)
    requires forall i :: 0 <= i < |s| ==> !('A' <= s[i] <= 'Z')
    ensures ToLower(s) == s
  {
  }

  lemma LowerIdempotent(s: string)
    ensures ToLower(ToLower(s)) == ToLower(s)
  {
  }

  /** Java's notion of white space for `String.trim`: every char up to U+0020. */
  predicate IsSpace(c: char) { c <= ' ' }

  function TrimStart(s: string): (r: string)
    ensures |r| <= |s| && r == s[|s| - |r|..]
    ensures r == [] || !IsSpace(r[0])
    ensures forall i :: 0 <= i < |s| - |r| ==> IsSpace(s[i])
  {
    if |s| > 0 && IsSpace(s[0]) then TrimStart(s[1..]) else s
  }

  function TrimEnd(s: string): (r: string)
    ensures |r| <= |s| && r == s[..|r|]
    ensures r == [] || !IsSpace(r[|r| - 1])
    ensures forall i :: |r| <= i < |s| ==> IsSpace(s[i])
  {
    if |s| > 0 && IsSpace(s[|s| - 1]) then TrimEnd(s[..|s| - 1]) else s
  }

  /** `r` is `s[a..b]`, and everything before `a` and from `b` on is white space. */
  predicate CutFrom(s: string, a: int, b: int, r: string) {
    0 <= a <= b <= |s| && r == s[a..b]
    && (forall i :: 0 <= i < a ==> IsSpace(s[i]))
    && (forall i :: b <= i < |s| ==> IsSpace(s[i]))
  }

  /** `String.trim`: drop white space at both ends. */
  function Trim(s: string): (r: string)
    ensures r == [] || (!IsSpace(r[0]) && !IsSpace(r[|r| - 1]))
    ensures exists a, b :: CutFrom(s, a, b, r)
  {
    TrimCut(s, TrimStart(s), TrimEnd(TrimStart(s)));
    TrimEnd(TrimStart(s))
  }

  /** Cutting white space off the front and then off the back leaves a slice of the input. */
  lemma TrimCut(s: string, t: string, r: string)
    requires |t| <= |s| && t == s[|s| - |t|..] && forall i :: 0 <= i < |s| - |t| ==> IsSpace(s[i])
    requires |r| <= |t| && r == t[..|r|] && forall i :: |r| <= i < |t| ==> IsSpace(t[i])
    ensures CutFrom(s, |s| - |t|, |s| - |t| + |r|, r)
  {
    var a := |s| - |t|;
    var b := a + |r|;
    assert r == s[a..b] by {
      forall i | 0 <= i < |r|
        ensures r[i] == s[a + i]
      {
        assert r[i] == t[i] && t[i] == s[a + i];
      }
    }
    forall i | b <= i < |s|
      ensures IsSpace(s[i])
    {
      assert s[i] == t[i - a];
    }
  }

  /** A string with no white space at either end is its own trim. */
  lemma TrimOfTrimmed(s: string)
    requires s == [] || (!IsSpace(s[0]) && !IsSpace(s[|s| - 1]))
    ensures Trim(s) == s
  {
  }

  function DigitChar(d: int): char
    requires 0 <= d < 10
    ensures '0' <= DigitChar(d) <= '9' && DigitValue(DigitChar(d)) == d
  {
    "0123456789"[d]
  }

  function DigitValue(c: char): int { c as int - '0' as int }

  predicate AllDigits(t: string) { forall i :: 0 <= i < |t| ==> '0' <= t[i] <= '9' }

  function Pow10(k: nat): (r: nat)
    ensures r >= 1
  {
    if k == 0 then 1 else 10 * Pow10(k - 1)
  }

  /** The number a string of decimal digits denotes: each digit weighted by its power of ten. */
  function DecimalValue(t: string): nat
    requires AllDigits(t)
    decreases |t|
  {
    if |t| == 0 then 0 else DigitValue(t[0]) * Pow10(|t| - 1) + DecimalValue(t[1..])
  }

  /** One more digit on the right multiplies the value by ten and adds the digit. */
  lemma {:induction false} DecimalValueSnoc(t: string, c: char)
    requires AllDigits(t) && '0' <= c <= '9'
    ensures AllDigits(t + [c]) && DecimalValue(t + [c]) == 10 * DecimalValue(t) + DigitValue(c)
    decreases |t|
  {
    var u := t + [c];
    if |t| > 0 {
      assert u[1..] == t[1..] + [c];
      DecimalValueSnoc(t[1..], c);
      var d, p := DigitValue(t[0]), Pow10(|t| - 1);
      assert Pow10(|u| - 1) == 10 * p;
      assert d * (10 * p) == 10 * (d * p);
    } else {
      assert u[1..] == [];
    }
  }

  /** Decimal rendering of a natural number, most significant digit first. */
  function NatToString(n: nat): (r: string)
    ensures |r| > 0 && AllDigits(r)
    decreases n
  {
    if n < 10 then [DigitChar(n)] else NatToString(n / 10) + [DigitChar(n % 10)]
  }

  /** The rendering of a natural number denotes that number. */
  lemma {:induction false} NatToStringDenotes(n: nat)
    ensures DecimalValue(NatToString(n)) == n
    decreases n
  {
    if n < 10 {
      assert DecimalValue([DigitChar(n)]) == DigitValue(DigitChar(n)) * Pow10(0) + DecimalValue([]);
    } else {
      NatToStringDenotes(n / 10);
      DecimalValueSnoc(NatToString(n / 10), DigitChar(n % 10));
    }
  }

  /** The digits of a numeral: what follows one leading sign, or the whole text without one. */
  function Magnitude(s: string): string {
    if |s| > 0 && (s[0] == '-' || s[0] == '+') then s[1..] else s
  }

  /** An optional sign followed by one or more decimal digits. */
  predicate IsNumeral(s: string) { |Magnitude(s)| > 0 && AllDigits(Magnitude(s)) }

  /** The value a numeral denotes; a leading '-' negates it. */
  function NumeralValue(s: string): int
    requires IsNumeral(s)
  {
    var v: int := DecimalValue(Magnitude(s));
    if s[0] == '-' then -v else v
  }

  /** `Integer.toString` / `Long.toString` / string concatenation of a number. */
  function IntToString(n: int): (r: string)
    ensures |r| > 0 && (r[0] == '-') == (n < 0)
  {
    if n < 0 then "-" + NatToString(-n) else NatToString(n)
  }

  /** The rendering of any integer is a numeral, signed exactly when negative, that denotes it. */
  lemma IntToStringDenotes(n: int)
    ensures IsNumeral(IntToString(n)) && NumeralValue(IntToString(n)) == n
  {
    var r := IntToString(n);
    if n < 0 {
      NatToStringDenotes(-n);
      assert Magnitude(r) == NatToString(-n);
    } else {
      NatToStringDenotes(n);
      assert Magnitude(r) == NatToString(n);
    }
  }

  /** The value of a string of decimal digits, most significant first; None when a character is not a digit. */
  function ParseDigits(s: string): (r: Option<nat>)
    decreases |s|
  {
    if |s| == 0 then Some(0)
    else
      var last := s[|s| - 1];
      match ParseDigits(s[..|s| - 1])
      case None => None
      case Some(v) => if '0' <= last <= '9' then Some(v * 10 + DigitValue(last)) else None
  }

  /** Reading digits from the right agrees with weighting them by powers of ten, and fails exactly on a non-digit. */
  lemma {:induction false} ParseDigitsDenotes(s: string)
    ensures ParseDigits(s).Some? <==> AllDigits(s)
    ensures ParseDigits(s).Some? ==> ParseDigits(s).value == DecimalValue(s)
    decreases |s|
  {
    if |s| > 0 {
      var init, last := s[..|s| - 1], s[|s| - 1];
      assert s == init + [last];
      ParseDigitsDenotes(init);
      if AllDigits(init) && '0' <= last <= '9' {
        DecimalValueSnoc(init, last);
      }
    }
  }

  /** `Integer.parseInt`: an optional sign, then one or more decimal digits, within 32 bits. */
  function ParseInt(s: string): (r: Option<int>)
    ensures r.Some? ==> IsInt32(r.value)
  {
    var negative := |s| > 0 && s[0] == '-';
    var digits := Magnitude(s);
    if |digits| == 0 then None
    else match ParseDigits(digits)
      case None => None
      case Some(n) =>
        var v: int := if negative then 0 - n else n;
        if IsInt32(v) then Some(v) else None
  }

  /** `parseInt` succeeds exactly on a numeral whose value fits in 32 bits, and then gives that value. */
  lemma ParseIntMeaning(s: string)
    ensures ParseInt(s).Some? <==> IsNumeral(s) && IsInt32(NumeralValue(s))
    ensures ParseInt(s).Some? ==> ParseInt(s).value == NumeralValue(s)
  {
    ParseDigitsDenotes(Magnitude(s));
  }

  /** Parsing the rendering of a natural number up to 2^31-1 gives the number back. */
  lemma ParseIntOfRendering(n: nat)
    requires n <= INT32_MAX
    ensures ParseInt(NatToString(n)) == Some(n)
  {
    IntToStringParses(n);
  }

  /** Parsing the rendering of any 32-bit number, negatives included, gives the number back. */
  lemma IntToStringParses(n: int)
    requires IsInt32(n)
    ensures ParseInt(IntToString(n)) == Some(n)
  {
    IntToStringDenotes(n);
    ParseIntMeaning(IntToString(n));
  }
}
