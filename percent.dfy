/** Percent-encoding of text as URLs and cookies carry it: Python's `urllib.parse.quote` (with
    its default `safe="/"`) and JavaScript's `encodeURIComponent`, which both write every other
    character as the `%XX` escapes of its UTF-8 bytes, and JavaScript's `decodeURIComponent`,
    which reads them back and refuses malformed escapes. */
module Percent {

  import opened Outcome

  /** Which characters an encoder leaves as they are. */
  datatype Flavor = PyQuote | UriComponent

  predicate AlphaNum(c: char) {
    ('A' <= c <= 'Z') || ('a' <= c <= 'z') || ('0' <= c <= '9')
  }

  /** `quote`: letters, digits and `_.-~` always, plus `/`; `encodeURIComponent`: letters,
      digits and `-_.!~*'()`. */
  predicate Unescaped(c: char, f: Flavor) {
    match f
    case PyQuote => AlphaNum(c) || c == '_' || c == '.' || c == '-' || c == '~' || c == '/'
    case UriComponent =>
      AlphaNum(c) || c == '-' || c == '_' || c == '.' || c == '!' || c == '~' || c == '*' || c == '\''
      || c == '(' || c == ')'
  }

  // UTF-8

  predicate Scalar(n: int) {
    (0 <= n < 0xD800) || (0xE000 <= n < 0x11_0000)
  }

  /** The UTF-8 bytes of a character (RFC 3629, section 3). */
  function Utf8(c: char): (r: seq<int>)
    ensures 1 <= |r| <= 4
    ensures forall k :: 0 <= k < |r| ==> 0 <= r[k] < 256
  {
    var n := c as int;
    if n < 0x80 then [n]
    else if n < 0x800 then [0xC0 + n / 64, 0x80 + n % 64]
    else if n < 0x1_0000 then [0xE0 + n / 4096, 0x80 + (n / 64) % 64, 0x80 + n % 64]
    else [0xF0 + n / 262144, 0x80 + (n / 4096) % 64, 0x80 + (n / 64) % 64, 0x80 + n % 64]
  }

  /** How many bytes a sequence starting with `b` has, or 0 when `b` cannot start one. */
  function Utf8Length(b: int): nat {
    if 0 <= b < 0x80 then 1
    else if 0xC2 <= b < 0xE0 then 2
    else if 0xE0 <= b < 0xF0 then 3
    else if 0xF0 <= b < 0xF5 then 4
    else 0
  }

  predicate Continuation(b: int) {
    0x80 <= b < 0xC0
  }

  predicate Continuations(bs: seq<int>) {
    forall k :: 1 <= k < |bs| ==> Continuation(bs[k])
  }

  /** The value the payload bits of a sequence of one to four bytes spell. */
  function Utf8Value(bs: seq<int>): int
    requires 1 <= |bs| <= 4
  {
    if |bs| == 1 then bs[0]
    else if |bs| == 2 then (bs[0] - 0xC0) * 64 + (bs[1] - 0x80)
    else if |bs| == 3 then (bs[0] - 0xE0) * 4096 + (bs[1] - 0x80) * 64 + (bs[2] - 0x80)
    else (bs[0] - 0xF0) * 262144 + (bs[1] - 0x80) * 4096 + (bs[2] - 0x80) * 64 + (bs[3] - 0x80)
  }

  /** The smallest code point that needs `n` bytes: anything below is an overlong form. */
  function Utf8Least(n: int): int {
    if n == 1 then 0 else if n == 2 then 0x80 else if n == 3 then 0x800 else 0x1_0000
  }

  /** The code point of a well-formed sequence; `None` for a malformed, overlong or surrogate
      one (the URIError of `decodeURIComponent`). */
  function Utf8Decode(bs: seq<int>): (r: Option<char>)
    requires 1 <= |bs| <= 4
    ensures r.Some? ==> Utf8Length(bs[0]) == |bs| && Continuations(bs)
  {
    if Utf8Length(bs[0]) != |bs| || !Continuations(bs) then None
    else
      var n := Utf8Value(bs);
      if Utf8Least(|bs|) <= n && Scalar(n) then Some(n as char) else None
  }

  lemma Utf8Two(n: int)
    requires 0x80 <= n < 0x800
    ensures var bs := [0xC0 + n / 64, 0x80 + n % 64];
      Utf8Length(bs[0]) == 2 && Continuations(bs) && Utf8Value(bs) == n
  {
    var q, r := n / 64, n % 64;
    assert n == q * 64 + r;
  }

  lemma Utf8Three(n: int)
    requires 0x800 <= n < 0x1_0000
    ensures var bs := [0xE0 + n / 4096, 0x80 + (n / 64) % 64, 0x80 + n % 64];
      Utf8Length(bs[0]) == 3 && Continuations(bs) && Utf8Value(bs) == n
  {
    var a, m := n / 4096, n % 4096;
    assert n == a * 4096 + m;
    var b, c := m / 64, m % 64;
    assert m == b * 64 + c;
    assert n / 64 == a * 64 + b;
    assert (n / 64) % 64 == b;
    assert n % 64 == c;
  }

  lemma Utf8Four(n: int)
    requires 0x1_0000 <= n < 0x11_0000
    ensures var bs := [0xF0 + n / 262144, 0x80 + (n / 4096) % 64, 0x80 + (n / 64) % 64, 0x80 + n % 64];
      Utf8Length(bs[0]) == 4 && Continuations(bs) && Utf8Value(bs) == n
  {
    var a, m := n / 262144, n % 262144;
    assert n == a * 262144 + m;
    var b, m2 := m / 4096, m % 4096;
    assert m == b * 4096 + m2;
    var c, d := m2 / 64, m2 % 64;
    assert m2 == c * 64 + d;
    assert n / 4096 == a * 64 + b;
    assert (n / 4096) % 64 == b;
    assert n / 64 == a * 4096 + b * 64 + c;
    assert (n / 64) % 64 == c;
    assert n % 64 == d;
  }

  lemma Utf8RoundTrip(c: char)
    ensures Utf8Length(Utf8(c)[0]) == |Utf8(c)|
    ensures Utf8Decode(Utf8(c)) == Some(c)
  {
    var n := c as int;
    if n < 0x80 {
    } else if n < 0x800 {
      Utf8Two(n);
    } else if n < 0x1_0000 {
      Utf8Three(n);
    } else {
      Utf8Four(n);
    }
  }

  // Escapes

  const HexDigits: string := "0123456789ABCDEF"

  predicate IsHex(c: char) {
    ('0' <= c <= '9') || ('A' <= c <= 'F') || ('a' <= c <= 'f')
  }

  /** The value of a hexadecimal digit, either case. */
  function HexValue(c: char): (v: nat)
    requires IsHex(c)
    ensures v < 16
  {
    if '0' <= c <= '9' then c as int - '0' as int
    else if 'A' <= c <= 'F' then c as int - 'A' as int + 10
    else c as int - 'a' as int + 10
  }

  predicate UpperHex(c: char) {
    ('0' <= c <= '9') || ('A' <= c <= 'F')
  }

  lemma HexDigitValue(d: nat)
    requires d < 16
    ensures UpperHex(HexDigits[d]) && IsHex(HexDigits[d]) && HexValue(HexDigits[d]) == d
  {
  }

  /** The two digits of a byte. */
  function HexPair(b: int): (r: string)
    requires 0 <= b < 256
    ensures |r| == 2 && UpperHex(r[0]) && UpperHex(r[1])
  {
    HexDigitValue(b / 16);
    HexDigitValue(b % 16);
    [HexDigits[b / 16], HexDigits[b % 16]]
  }

  /** One of the characters an encoder writes. */
  predicate Encoded(c: char, f: Flavor) {
    Unescaped(c, f) || c == '%' || UpperHex(c)
  }

  lemma HexPairValue(b: int)
    requires 0 <= b < 256
    ensures IsHex(HexPair(b)[0]) && IsHex(HexPair(b)[1])
    ensures HexValue(HexPair(b)[0]) * 16 + HexValue(HexPair(b)[1]) == b
  {
    HexDigitValue(b / 16);
    HexDigitValue(b % 16);
  }

  /** `%XX` for each byte, with upper-case digits. */
  function Escapes(bs: seq<int>): (r: string)
    requires forall k :: 0 <= k < |bs| ==> 0 <= bs[k] < 256
    ensures |r| == 3 * |bs|
    ensures forall i :: 0 <= i < |r| ==> r[i] == '%' || UpperHex(r[i])
    decreases |bs|
  {
    if bs == [] then ""
    else "%" + HexPair(bs[0]) + Escapes(bs[1..])
  }

  function EncodeChar(c: char, f: Flavor): (r: string)
    ensures 1 <= |r|
    ensures Unescaped(c, f) ==> r == [c]
    ensures !Unescaped(c, f) ==> r[0] == '%' && forall i :: 0 <= i < |r| ==> r[i] == '%' || UpperHex(r[i])
  {
    if Unescaped(c, f) then [c] else Escapes(Utf8(c))
  }

  /** `quote(s)` / `encodeURIComponent(s)`. */
  function Encode(s: string, f: Flavor): (r: string)
    ensures forall i :: 0 <= i < |r| ==> Encoded(r[i], f)
    decreases |s|
  {
    if s == [] then "" else EncodeChar(s[0], f) + Encode(s[1..], f)
  }

  /** The byte an escape at the front of `s` stands for. */
  function EscapedByte(s: string): (r: Option<int>)
    ensures r.Some? ==> 0 <= r.value < 256
  {
    if |s| >= 3 && s[0] == '%' && IsHex(s[1]) && IsHex(s[2]) then Some(HexValue(s[1]) * 16 + HexValue(s[2]))
    else None
  }

  /** The bytes of `n` escapes at the front of `s`. */
  function EscapedBytes(s: string, n: nat): (r: Option<seq<int>>)
    ensures r.Some? ==> |r.value| == n && 3 * n <= |s|
    decreases n
  {
    if n == 0 then Some([])
    else
      match EscapedByte(s)
      case None => None
      case Some(b) =>
        match EscapedBytes(s[3..], n - 1)
        case None => None
        case Some(rest) => Some([b] + rest)
  }

  /** `decodeURIComponent(s)`; `None` is the URIError it throws. */
  function Decode(s: string): (r: Option<string>)
    decreases |s|
  {
    if s == [] then Some([])
    else if s[0] != '%' then
      match Decode(s[1..])
      case None => None
      case Some(rest) => Some([s[0]] + rest)
    else
      match EscapedByte(s)
      case None => None
      case Some(b0) =>
        var n := Utf8Length(b0);
        if n == 0 then None
        else
          match EscapedBytes(s, n)
          case None => None
          case Some(bs) =>
            match Utf8Decode(bs)
            case None => None
            case Some(c) =>
              match Decode(s[3 * n..])
              case None => None
              case Some(rest) => Some([c] + rest)
  }

  lemma PairRead(b: int, rest: string)
    requires 0 <= b < 256
    ensures EscapedByte("%" + HexPair(b) + rest) == Some(b)
  {
    var e := "%" + HexPair(b) + rest;
    HexPairValue(b);
    assert e[1] == HexPair(b)[0] && e[2] == HexPair(b)[1];
  }

  lemma {:induction false} EscapesRead(bs: seq<int>, t: string)
    requires forall k :: 0 <= k < |bs| ==> 0 <= bs[k] < 256
    ensures bs != [] ==> EscapedByte(Escapes(bs) + t) == Some(bs[0])
    ensures EscapedBytes(Escapes(bs) + t, |bs|) == Some(bs)
    decreases |bs|
  {
    if bs != [] {
      var rest := Escapes(bs[1..]) + t;
      assert Escapes(bs) + t == "%" + HexPair(bs[0]) + rest;
      PairRead(bs[0], rest);
      var e := Escapes(bs) + t;
      assert e[3..] == rest;
      EscapesRead(bs[1..], t);
      assert [bs[0]] + bs[1..] == bs;
    }
  }

  /** Decoding reads back one encoded character and goes on with what follows. */
  lemma DecodeChar(c: char, f: Flavor, t: string)
    ensures Decode(EncodeChar(c, f) + t) ==
      (match Decode(t) case None => None case Some(rest) => Some([c] + rest))
  {
    var e := EncodeChar(c, f) + t;
    if Unescaped(c, f) {
      assert c != '%';
      assert e[1..] == t;
    } else {
      var bs := Utf8(c);
      Utf8RoundTrip(c);
      EscapesRead(bs, t);
      assert e[3 * |bs|..] == t;
    }
  }

  /** Decoding an encoding reads back its first character and goes on with the rest. */
  lemma EncodeStep(s: string, f: Flavor)
    requires s != []
    ensures Decode(Encode(s, f)) ==
      (match Decode(Encode(s[1..], f)) case None => None case Some(rest) => Some([s[0]] + rest))
  {
    DecodeChar(s[0], f, Encode(s[1..], f));
  }

  /** Encoding is injective: `decodeURIComponent` undoes either encoder. */
  lemma {:induction false} DecodeEncode(s: string, f: Flavor)
    ensures Decode(Encode(s, f)) == Some(s)
    decreases |s|
  {
    if s != [] {
      DecodeEncode(s[1..], f);
      EncodeStep(s, f);
      assert [s[0]] + s[1..] == s;
    }
  }

  lemma EncodeInjective(s: string, t: string, f: Flavor)
    requires Encode(s, f) == Encode(t, f)
    ensures s == t
  {
    DecodeEncode(s, f);
    DecodeEncode(t, f);
  }

  /** An encoded value never holds the separators of a query string or cookie header. */
  lemma EncodedHasNoSeparators(s: string, f: Flavor)
    ensures '&' !in Encode(s, f) && '=' !in Encode(s, f) && ';' !in Encode(s, f)
    ensures ' ' !in Encode(s, f) && ',' !in Encode(s, f)
  {
    var r := Encode(s, f);
    forall i | 0 <= i < |r| ensures r[i] != '&' && r[i] != '=' && r[i] != ';' && r[i] != ' ' && r[i] != ',' {
      assert Encoded(r[i], f);
    }
  }
}
