/** The string operations the Python and TypeScript sources use (`strip`, `trim`, `lower`,
    `startswith`, `rstrip("/")`, `split`, `join`, `int(...)` and f-string formatting of integers),
    each written out so that its edge cases are visible. */
module Text {

  import opened Outcome

  /** Which language's idea of whitespace a trim follows. */
  datatype Rules = Python | JavaScript

  /** Python's `str.isspace()`. */
  predicate PySpace(c: char) {
    var n := c as int;
    || (0x09 <= n <= 0x0D) || (0x1C <= n <= 0x20) || n == 0x85 || n == 0xA0 || n == 0x1680
    || (0x2000 <= n <= 0x200A) || n == 0x2028 || n == 0x2029 || n == 0x202F || n == 0x205F
    || n == 0x3000
  }

  /** The characters JavaScript's `String.prototype.trim()` removes (WhiteSpace and LineTerminator). */
  predicate JsSpace(c: char) {
    var n := c as int;
    || (0x09 <= n <= 0x0D) || n == 0x20 || n == 0xA0 || n == 0x1680
    || (0x2000 <= n <= 0x200A) || n == 0x2028 || n == 0x2029 || n == 0x202F || n == 0x205F
    || n == 0x3000 || n == 0xFEFF
  }

  predicate Space(c: char, w: Rules) {
    match w
    case Python => PySpace(c)
    case JavaScript => JsSpace(c)
  }

  predicate IsBlank(s: string, w: Rules) {
    forall k :: 0 <= k < |s| ==> Space(s[k], w)
  }

  /** Removes leading whitespace. */
  function LStrip(s: string, w: Rules): (r: string)
    ensures |r| <= |s|
    decreases |s|
  {
    if s != [] && Space(s[0], w) then LStrip(s[1..], w) else s
  }

  /** Removes trailing whitespace. */
  function RStrip(s: string, w: Rules): (r: string)
    ensures |r| <= |s|
    decreases |s|
  {
    if s != [] && Space(s[|s| - 1], w) then RStrip(s[..|s| - 1], w) else s
  }

  /** `LStrip` keeps the suffix of `s` that starts at its first non-space character. */
  lemma {:induction false} LStripShape(s: string, w: Rules)
    ensures var r := LStrip(s, w);
      && r == s[|s| - |r|..]
      && (forall k :: 0 <= k < |s| - |r| ==> Space(s[k], w))
      && (r == [] || !Space(r[0], w))
    decreases |s|
  {
    if s != [] && Space(s[0], w) {
      LStripShape(s[1..], w);
      var r := LStrip(s[1..], w);
      assert s[1..][|s| - 1 - |r|..] == s[|s| - |r|..];
      forall k | 0 < k < |s| - |r| ensures Space(s[k], w) {
        assert s[k] == s[1..][k - 1];
      }
    }
  }

  /** `RStrip` keeps the prefix of `s` that ends at its last non-space character. */
  lemma {:induction false} RStripShape(s: string, w: Rules)
    ensures var r := RStrip(s, w);
      && r == s[..|r|]
      && (forall k :: |r| <= k < |s| ==> Space(s[k], w))
      && (r == [] || !Space(r[|r| - 1], w))
    decreases |s|
  {
    if s != [] && Space(s[|s| - 1], w) {
      RStripShape(s[..|s| - 1], w);
      var r := RStrip(s[..|s| - 1], w);
      forall k | |r| <= k < |s| - 1 ensures Space(s[k], w) {
        assert s[k] == s[..|s| - 1][k];
      }
    }
  }

  function Trimmed(s: string, w: Rules): string {
    RStrip(LStrip(s, w), w)
  }

  /** Python's `s.strip()`. */
  function Strip(s: string): string {
    Trimmed(s, Python)
  }

  /** JavaScript's `s.trim()`. */
  function Trim(s: string): string {
    Trimmed(s, JavaScript)
  }

  /** What is left after trimming is the piece of the input that starts at offset `i` (the
      number of leading spaces), has no space at either end, and everything cut off was space. */
  lemma TrimmedShape(s: string, w: Rules)
    ensures var r, i := Trimmed(s, w), |s| - |LStrip(s, w)|;
      && (r == [] || (!Space(r[0], w) && !Space(r[|r| - 1], w)))
      && 0 <= i <= |s| - |r| && r == s[i..i + |r|]
      && (forall k :: 0 <= k < i ==> Space(s[k], w))
      && (forall k :: i + |r| <= k < |s| ==> Space(s[k], w))
  {
    var l := LStrip(s, w);
    var i := |s| - |l|;
    LStripShape(s, w);
    RStripPiece(s, i, l, w);
  }

  /** Right-stripping a suffix of `s` keeps a piece of `s`; what it cuts off is space. */
  lemma RStripPiece(s: string, i: nat, l: string, w: Rules)
    requires i <= |s| && l == s[i..] && (l == [] || !Space(l[0], w))
    ensures var r := RStrip(l, w);
      && (r == [] || (!Space(r[0], w) && !Space(r[|r| - 1], w)))
      && i + |r| <= |s| && r == s[i..i + |r|]
      && (forall k :: i + |r| <= k < |s| ==> Space(s[k], w))
  {
    var r := RStrip(l, w);
    RStripShape(l, w);
    assert r == l[..|r|];
    if r != [] {
      assert r[0] == l[0];
    }
    forall k | i + |r| <= k < |s| ensures Space(s[k], w) {
      assert s[k] == l[k - i];
    }
  }

  /** Trimming gives the empty string exactly when the input is all whitespace. */
  lemma TrimmedEmptyIffBlank(s: string, w: Rules)
    ensures Trimmed(s, w) == [] <==> IsBlank(s, w)
  {
    TrimmedShape(s, w);
    if IsBlank(s, w) {
      BlankStrips(s, w);
    }
  }

  lemma {:induction false} BlankStrips(s: string, w: Rules)
    requires IsBlank(s, w)
    ensures LStrip(s, w) == []
    decreases |s|
  {
    if s != [] {
      assert IsBlank(s[1..], w) by {
        forall k | 0 <= k < |s| - 1 ensures Space(s[1..][k], w) {
          assert s[1..][k] == s[k + 1];
        }
      }
      BlankStrips(s[1..], w);
    }
  }

  /** Trimming twice is trimming once. */
  lemma TrimmedIdempotent(s: string, w: Rules)
    ensures Trimmed(Trimmed(s, w), w) == Trimmed(s, w)
  {
    TrimmedShape(s, w);
    var r := Trimmed(s, w);
    if r != [] {
      assert LStrip(r, w) == r;
      assert RStrip(r, w) == r;
    }
  }

  function LowerChar(c: char): char {
    if 'A' <= c <= 'Z' then (c as int + 32) as char else c
  }

  /** `s.lower()` / `s.toLowerCase()` on ASCII letters; other characters are kept. */
  function Lower(s: string): (r: string)
    ensures |r| == |s|
    ensures forall k :: 0 <= k < |s| ==> r[k] == LowerChar(s[k])
  {
    seq(|s|, k requires 0 <= k < |s| => LowerChar(s[k]))
  }

  lemma LowerIdempotent(s: string)
    ensures Lower(Lower(s)) == Lower(s)
  {
  }

  lemma {:induction false} LStripLower(s: string, w: Rules)
    ensures LStrip(Lower(s), w) == Lower(LStrip(s, w))
    decreases |s|
  {
    if s != [] {
      assert Lower(s)[1..] == Lower(s[1..]);
      LStripLower(s[1..], w);
    }
  }

  lemma {:induction false} RStripLower(s: string, w: Rules)
    ensures RStrip(Lower(s), w) == Lower(RStrip(s, w))
    decreases |s|
  {
    if s != [] {
      assert Lower(s)[..|s| - 1] == Lower(s[..|s| - 1]);
      RStripLower(s[..|s| - 1], w);
    }
  }

  /** `s.strip().lower()` and `s.lower().strip()` agree: the sources use both orders. */
  lemma StripLowerCommute(s: string)
    ensures Lower(Strip(s)) == Strip(Lower(s))
  {
    LStripLower(s, Python);
    RStripLower(LStrip(s, Python), Python);
  }

  predicate StartsWith(s: string, p: string) {
    |p| <= |s| && s[..|p|] == p
  }

  /** `s.rstrip(c)`: removes every trailing occurrence of `c`. */
  function RStripChar(s: string, c: char): (r: string)
    ensures |r| <= |s| && r == s[..|r|]
    ensures forall k :: |r| <= k < |s| ==> s[k] == c
    ensures r == [] || r[|r| - 1] != c
    decreases |s|
  {
    if s != [] && s[|s| - 1] == c then RStripChar(s[..|s| - 1], c) else s
  }

  /** `s.replace(a, b)` for single characters. */
  function ReplaceChar(s: string, a: char, b: char): (r: string)
    ensures |r| == |s|
    ensures forall k :: 0 <= k < |s| ==> r[k] == (if s[k] == a then b else s[k])
  {
    seq(|s|, k requires 0 <= k < |s| => if s[k] == a then b else s[k])
  }

  /** Python's slice `s[:n]` for n >= 0. */
  function Take(s: string, n: nat): (r: string)
    ensures |r| == if n < |s| then n else |s|
    ensures r == s[..|r|]
  {
    if n < |s| then s[..n] else s
  }

  // Decimal rendering and parsing of integers

  predicate IsDigit(c: char) {
    '0' <= c <= '9'
  }

  function DigitChar(d: nat): char
    requires d < 10
  {
    ('0' as int + d) as char
  }

  function DigitValue(c: char): nat
    requires IsDigit(c)
  {
    c as int - '0' as int
  }

  /** The decimal digits of `n`, without leading zeros (how Python's f-strings and JavaScript's
      template literals print a non-negative integer). */
  function NatToString(n: nat): (r: string)
    ensures r != [] && forall k :: 0 <= k < |r| ==> IsDigit(r[k])
    decreases n
  {
    if n < 10 then [DigitChar(n)] else NatToString(n / 10) + [DigitChar(n % 10)]
  }

  function IntToString(i: int): (r: string)
    ensures r != []
  {
    if i < 0 then "-" + NatToString(-i) else NatToString(i)
  }

  /** A printed integer is a sign and digits, nothing else. */
  lemma IntToStringChars(i: int)
    ensures forall k :: 0 <= k < |IntToString(i)| ==> IsDigit(IntToString(i)[k]) || IntToString(i)[k] == '-'
  {
    var r := IntToString(i);
    if i < 0 {
      assert forall k :: 1 <= k < |r| ==> r[k] == NatToString(-i)[k - 1];
    }
  }

  /** The value of a non-empty string of decimal digits. */
  function DigitsValue(s: string): nat
    requires s != [] && forall k :: 0 <= k < |s| ==> IsDigit(s[k])
    decreases |s|
  {
    if |s| == 1 then DigitValue(s[0])
    else 10 * DigitsValue(s[..|s| - 1]) + DigitValue(s[|s| - 1])
  }

  predicate AllDigits(s: string) {
    s != [] && forall k :: 0 <= k < |s| ==> IsDigit(s[k])
  }

  /** Python's `int(s)` on a string: surrounding whitespace, an optional sign, then decimal
      digits; `None` is the ValueError the source would get. */
  function ParseInt(s: string): (r: Option<int>)
    ensures r.Some? ==> Strip(s) != []
  {
    var t := Strip(s);
    if t == [] then None
    else if (t[0] == '-' || t[0] == '+') && AllDigits(t[1..]) then
      var v := DigitsValue(t[1..]);
      Some(if t[0] == '-' then -(v as int) else v)
    else if AllDigits(t) then Some(DigitsValue(t))
    else None
  }

  lemma {:induction false} NatToStringParses(n: nat)
    ensures DigitsValue(NatToString(n)) == n
    decreases n
  {
    if n >= 10 {
      var s := NatToString(n);
      assert s[..|s| - 1] == NatToString(n / 10);
      NatToStringParses(n / 10);
    }
  }

  lemma NoSpaceAtEnds(s: string)
    requires s != [] && !PySpace(s[0]) && !PySpace(s[|s| - 1])
    ensures Strip(s) == s
  {
  }

  /** Parsing what was printed gives the number back. */
  lemma IntToStringParses(i: int)
    ensures ParseInt(IntToString(i)) == Some(i)
  {
    var s := IntToString(i);
    NoSpaceAtEnds(s);
    if i < 0 {
      assert s[1..] == NatToString(-i);
      NatToStringParses(-i);
    } else {
      NatToStringParses(i);
    }
  }

  // Joining and splitting

  /** `sep.join(parts)` / `parts.join(sep)`. */
  function Join(sep: string, parts: seq<string>): string
    decreases |parts|
  {
    if parts == [] then ""
    else if |parts| == 1 then parts[0]
    else parts[0] + sep + Join(sep, parts[1..])
  }

  function IndexOf(s: string, c: char): (r: nat)
    requires c in s
    ensures r < |s| && s[r] == c && c !in s[..r]
  {
    if s[0] == c then 0 else 1 + IndexOf(s[1..], c)
  }

  /** JavaScript's `s.split(c)` for a one-character separator: the pieces between the
      occurrences of `c`, at least one, none containing `c`. */
  function Split(s: string, c: char): (r: seq<string>)
    ensures |r| >= 1
    ensures forall k :: 0 <= k < |r| ==> c !in r[k]
    decreases |s|
  {
    if c !in s then [s]
    else
      var i := IndexOf(s, c);
      [s[..i]] + Split(s[i + 1..], c)
  }

  /** Splitting and joining with the same separator gives the string back. */
  lemma {:induction false} JoinSplit(s: string, c: char)
    ensures Join([c], Split(s, c)) == s
    decreases |s|
  {
    if c in s {
      var i := IndexOf(s, c);
      var rest := Split(s[i + 1..], c);
      var parts := [s[..i]] + rest;
      assert Split(s, c) == parts;
      assert parts[1..] == rest;
      assert Join([c], parts) == s[..i] + [c] + Join([c], rest);
      JoinSplit(s[i + 1..], c);
      assert s == s[..i] + [c] + s[i + 1..];
    }
  }

  /** A character that is in neither the separator nor any piece is not in the joined string. */
  lemma {:induction false} JoinAvoids(sep: string, parts: seq<string>, c: char)
    requires c !in sep
    requires forall k :: 0 <= k < |parts| ==> c !in parts[k]
    ensures c !in Join(sep, parts)
    decreases |parts|
  {
    if |parts| > 1 {
      JoinAvoids(sep, parts[1..], c);
    }
  }

  /** The first separator of `p + [c] + t` is the one after `p` when `p` has none. */
  lemma {:induction false} IndexOfJoined(p: string, c: char, t: string)
    requires c !in p
    ensures IndexOf(p + [c] + t, c) == |p|
    decreases |p|
  {
    if p != [] {
      assert (p + [c] + t)[1..] == p[1..] + [c] + t;
      IndexOfJoined(p[1..], c, t);
    }
  }

  /** Joining pieces that do not contain the separator and splitting again gives the pieces
      back: a reader of the joined string sees exactly the pieces that were joined. */
  lemma {:induction false} SplitJoin(parts: seq<string>, c: char)
    requires parts != []
    requires forall k :: 0 <= k < |parts| ==> c !in parts[k]
    ensures Split(Join([c], parts), c) == parts
    decreases |parts|
  {
    if |parts| > 1 {
      var p := parts[0];
      var rest := Join([c], parts[1..]);
      var s := p + [c] + rest;
      assert s[|p|] == c;
      IndexOfJoined(p, c, rest);
      assert s[..|p|] == p;
      assert s[|p| + 1..] == rest;
      SplitJoin(parts[1..], c);
    }
  }

  /** `str(e)` of a raised exception. */
  function FaultText(e: Fault): string {
    match e
    case ValueError(m) => m
    case ConfigError(m) => m
    case RuntimeError(m) => m
    case AuthError(m) => m
    case TypeFault(m) => m
    case HttpFault(status, d) => IntToString(status) + ": " + (if d.Coded? then d.message else d.text)
    case UpstreamError(_, m) => m
  }
}
