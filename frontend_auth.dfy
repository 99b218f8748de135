/** The token store of frontend/src/lib/auth.ts: the access and refresh tokens kept in the
    page's `localStorage` and mirrored in cookies written through `document.cookie`. The
    browser side is modelled as far as these helpers reach it: the cookies the page can see,
    in the order `document.cookie` lists them, what an assignment to `document.cookie` does to
    them (RFC 6265, section 5.2 and 5.3), and how `getCookie` reads the listing back. */
module BrowserAuth {

  import opened Outcome
  import opened Text
  import Percent

  const AccessKey := "access_token"
  const RefreshKey := "refresh_token"

  /** `setCookie`'s default lifetime, in days, and a day in seconds. */
  const DefaultDays := 7
  const Day := 24 * 60 * 60

  /** The message of the URIError `decodeURIComponent` throws on a malformed escape. */
  const MalformedUri := "URI malformed"

  // The cookies a page sees

  /** A cookie as `document.cookie` lists it. */
  datatype Cookie = Cookie(name: string, value: string)

  /** No white space at either end. */
  predicate Tight(s: string) {
    s == [] || (!JsSpace(s[0]) && !JsSpace(s[|s| - 1]))
  }

  /** What the browser keeps of a name and of a value: the name is not empty and holds no
      `=`; neither holds a `;`; both are trimmed. */
  predicate NameOk(n: string) {
    n != [] && ';' !in n && '=' !in n && Tight(n)
  }

  predicate ValueOk(v: string) {
    ';' !in v && Tight(v)
  }

  /** The cookie of that name: the first one listed. */
  function Lookup(jar: seq<Cookie>, name: string): Option<string>
    decreases |jar|
  {
    if jar == [] then None else if jar[0].name == name then Some(jar[0].value) else Lookup(jar[1..], name)
  }

  /** At most one cookie per name. */
  predicate Unique(jar: seq<Cookie>)
    decreases |jar|
  {
    jar == [] || (Lookup(jar[1..], jar[0].name).None? && Unique(jar[1..]))
  }

  predicate WellFormed(jar: seq<Cookie>) {
    forall k :: 0 <= k < |jar| ==> NameOk(jar[k].name) && ValueOk(jar[k].value)
  }

  predicate JarOk(jar: seq<Cookie>) {
    WellFormed(jar) && Unique(jar)
  }

  /** A cookie set with a positive or no lifetime replaces the one of the same name where it
      stands, or joins the end. */
  function Put(jar: seq<Cookie>, c: Cookie): seq<Cookie>
    decreases |jar|
  {
    if jar == [] then [c]
    else if jar[0].name == c.name then [c] + jar[1..]
    else [jar[0]] + Put(jar[1..], c)
  }

  /** A cookie set with a lifetime of zero or less removes the one of the same name. */
  function Without(jar: seq<Cookie>, name: string): seq<Cookie>
    decreases |jar|
  {
    if jar == [] then []
    else (if jar[0].name == name then [] else [jar[0]]) + Without(jar[1..], name)
  }

  lemma {:induction false} LookupPut(jar: seq<Cookie>, c: Cookie, m: string)
    ensures Lookup(Put(jar, c), m) == if m == c.name then Some(c.value) else Lookup(jar, m)
    decreases |jar|
  {
    if jar == [] {
      assert Put(jar, c) == [c] && [c][1..] == [];
    } else if jar[0].name == c.name {
      assert Put(jar, c) == [c] + jar[1..];
      assert ([c] + jar[1..])[1..] == jar[1..];
    } else {
      LookupPut(jar[1..], c, m);
      assert Put(jar, c) == [jar[0]] + Put(jar[1..], c);
      assert ([jar[0]] + Put(jar[1..], c))[1..] == Put(jar[1..], c);
    }
  }

  lemma {:induction false} LookupWithout(jar: seq<Cookie>, n: string, m: string)
    ensures Lookup(Without(jar, n), m) == if m == n then None else Lookup(jar, m)
    decreases |jar|
  {
    if jar != [] {
      LookupWithout(jar[1..], n, m);
      var w := Without(jar[1..], n);
      if jar[0].name != n {
        assert Without(jar, n) == [jar[0]] + w;
        assert ([jar[0]] + w)[1..] == w;
      } else {
        assert Without(jar, n) == [] + w == w;
      }
    }
  }

  /** The cookies after the first keep the shape of the whole. */
  lemma RestOk(jar: seq<Cookie>)
    requires JarOk(jar) && jar != []
    ensures JarOk(jar[1..]) && NameOk(jar[0].name) && ValueOk(jar[0].value)
      && Lookup(jar[1..], jar[0].name).None?
  {
    var rest := jar[1..];
    forall k | 0 <= k < |rest| ensures NameOk(rest[k].name) && ValueOk(rest[k].value) {
      assert rest[k] == jar[k + 1];
    }
  }

  /** A well-formed cookie whose name is not yet listed can head the list. */
  lemma ConsOk(c: Cookie, rest: seq<Cookie>)
    requires NameOk(c.name) && ValueOk(c.value) && JarOk(rest) && Lookup(rest, c.name).None?
    ensures JarOk([c] + rest)
  {
    var jar := [c] + rest;
    assert jar[1..] == rest;
    forall k | 0 <= k < |jar| ensures NameOk(jar[k].name) && ValueOk(jar[k].value) {
      if k > 0 {
        assert jar[k] == rest[k - 1];
      }
    }
  }

  /** Storing keeps at most one cookie per name, and keeps the cookies well formed. */
  lemma {:induction false} PutOk(jar: seq<Cookie>, c: Cookie)
    requires JarOk(jar) && NameOk(c.name) && ValueOk(c.value)
    ensures JarOk(Put(jar, c))
    decreases |jar|
  {
    if jar == [] {
      ConsOk(c, []);
      assert [c] + [] == [c];
    } else {
      RestOk(jar);
      var rest := jar[1..];
      if jar[0].name == c.name {
        ConsOk(c, rest);
      } else {
        PutOk(rest, c);
        LookupPut(rest, c, jar[0].name);
        ConsOk(jar[0], Put(rest, c));
      }
    }
  }

  lemma {:induction false} WithoutOk(jar: seq<Cookie>, n: string)
    requires JarOk(jar)
    ensures JarOk(Without(jar, n))
    decreases |jar|
  {
    if jar != [] {
      RestOk(jar);
      var rest := jar[1..];
      WithoutOk(rest, n);
      if jar[0].name != n {
        LookupWithout(rest, n, jar[0].name);
        ConsOk(jar[0], Without(rest, n));
      } else {
        assert Without(jar, n) == [] + Without(rest, n) == Without(rest, n);
      }
    }
  }

  // Reading `document.cookie`

  function Pair(c: Cookie): string {
    c.name + "=" + c.value
  }

  function Pairs(jar: seq<Cookie>): (ps: seq<string>)
    ensures |ps| == |jar| && forall k :: 0 <= k < |jar| ==> ps[k] == Pair(jar[k])
  {
    seq(|jar|, k requires 0 <= k < |jar| => Pair(jar[k]))
  }

  /** `document.cookie` read: the cookies as `name=value`, separated by `"; "`. */
  function CookieString(jar: seq<Cookie>): string {
    Join("; ", Pairs(jar))
  }

  /** `cookie.split(";").map((v) => v.trim())`. */
  function Segments(cookie: string): (segs: seq<string>)
    ensures |segs| == |Split(cookie, ';')|
    ensures forall k :: 0 <= k < |segs| ==> segs[k] == Trim(Split(cookie, ';')[k])
  {
    var parts := Split(cookie, ';');
    seq(|parts|, k requires 0 <= k < |parts| => Trim(parts[k]))
  }

  /** `.find((v) => v.startsWith(p))`, as an index; `|segs|` when nothing matches. */
  function FirstWith(segs: seq<string>, p: string): (i: nat)
    ensures i <= |segs|
    ensures i < |segs| ==> StartsWith(segs[i], p)
    ensures forall k :: 0 <= k < i ==> !StartsWith(segs[k], p)
    decreases |segs|
  {
    if segs == [] then 0
    else if StartsWith(segs[0], p) then 0
    else
      var i := FirstWith(segs[1..], p);
      assert forall k :: 1 <= k < i + 1 ==> segs[k] == segs[1..][k - 1];
      1 + i
  }

  /** A string holding `c` splits into at least two pieces. */
  lemma SplitTwo(s: string, c: char)
    requires c in s
    ensures |Split(s, c)| >= 2
  {
  }

  /** `decodeURIComponent`; the error is the URIError's message. */
  function DecodeComponent(s: string): (r: Result<string, string>)
    ensures r.Ok? <==> Percent.Decode(s).Some?
    ensures r.Ok? ==> r.value == Percent.Decode(s).value
    ensures r.Err? ==> r.error == MalformedUri
  {
    match Percent.Decode(s)
    case None => Err(MalformedUri)
    case Some(d) => Ok(d)
  }

  /** `getCookie(name)`: `None` for `document` is a page rendered on the server. The value
      read is the text between the first and the second `=` of the first trimmed segment
      that starts with `name=`, decoded. */
  function GetCookie(cookie: Option<string>, name: string): (r: Result<Option<string>, string>)
    ensures cookie.None? ==> r == Ok(None)
    ensures cookie.Some? && r != Ok(None) ==> FirstWith(Segments(cookie.value), name + "=") < |Segments(cookie.value)|
  {
    if cookie.None? then Ok(None)
    else
      var segs := Segments(cookie.value);
      var i := FirstWith(segs, name + "=");
      if i == |segs| then Ok(None)
      else
        assert segs[i][|name|] == '=';
        SplitTwo(segs[i], '=');
        var v :- DecodeComponent(Split(segs[i], '=')[1]);
        Ok(Some(v))
  }

  /** What `getCookie` reports for the cookies a page holds: nothing when no cookie has the
      name, otherwise the decoded text of its value up to the first `=`. */
  function JarValue(jar: seq<Cookie>, name: string): Result<Option<string>, string> {
    match Lookup(jar, name)
    case None => Ok(None)
    case Some(value) =>
      var v :- DecodeComponent(Split(value, '=')[0]);
      Ok(Some(v))
  }

  function Prefixed(pre: string, qs: seq<string>): (r: seq<string>)
    ensures |r| == |qs| && forall k :: 0 <= k < |qs| ==> r[k] == pre + qs[k]
  {
    seq(|qs|, k requires 0 <= k < |qs| => pre + qs[k])
  }

  lemma {:induction false} PrefixJoin(sep: string, pre: string, qs: seq<string>)
    requires qs != []
    ensures pre + Join(sep + pre, qs) == Join(sep, Prefixed(pre, qs))
    decreases |qs|
  {
    if |qs| > 1 {
      var x := Join(sep + pre, qs[1..]);
      PrefixJoin(sep, pre, qs[1..]);
      var r := Prefixed(pre, qs);
      assert r[1..] == Prefixed(pre, qs[1..]);
      assert pre + (qs[0] + (sep + pre) + x) == (pre + qs[0]) + sep + (pre + x);
    }
  }

  /** Listing with `sep + pre` is listing with `sep` where every piece but the first gains
      the prefix. */
  lemma JoinPrefixed(sep: string, pre: string, ps: seq<string>)
    requires ps != []
    ensures Join(sep + pre, ps) == Join(sep, [ps[0]] + Prefixed(pre, ps[1..]))
  {
    var qs := [ps[0]] + Prefixed(pre, ps[1..]);
    if |ps| > 1 {
      var x := Join(sep + pre, ps[1..]);
      PrefixJoin(sep, pre, ps[1..]);
      assert qs[1..] == Prefixed(pre, ps[1..]);
      assert ps[0] + (sep + pre) + x == ps[0] + sep + (pre + x);
    } else {
      assert qs == [ps[0]];
    }
  }

  lemma TrimTight(p: string)
    requires p != [] && !JsSpace(p[0]) && !JsSpace(p[|p| - 1])
    ensures Trim(p) == p && Trim(" " + p) == p
  {
    assert (" " + p)[1..] == p;
    assert LStrip(" " + p, JavaScript) == LStrip(p, JavaScript);
  }

  lemma PairTight(c: Cookie)
    requires NameOk(c.name) && ValueOk(c.value)
    ensures var p := Pair(c); p != [] && !JsSpace(p[0]) && !JsSpace(p[|p| - 1]) && ';' !in p
  {
    var p := Pair(c);
    assert p[0] == c.name[0];
    if c.value != [] {
      assert p[|p| - 1] == c.value[|c.value| - 1];
    }
  }

  /** The trimmed segments of the listing are exactly the `name=value` pairs. */
  lemma SegmentsOfJar(jar: seq<Cookie>)
    requires WellFormed(jar) && jar != []
    ensures Segments(CookieString(jar)) == Pairs(jar)
  {
    var ps := Pairs(jar);
    var qs := [ps[0]] + Prefixed(" ", ps[1..]);
    assert "; " == ";" + " ";
    JoinPrefixed(";", " ", ps);
    forall k | 0 <= k < |qs| ensures ';' !in qs[k] && Trim(qs[k]) == ps[k] {
      PairTight(jar[k]);
      TrimTight(ps[k]);
      if k > 0 {
        assert qs[k] == " " + ps[k];
      }
    }
    SplitJoin(qs, ';');
  }

  /** A pair starts with `name=` exactly when it is the cookie of that name. */
  lemma PairStarts(c: Cookie, name: string)
    requires NameOk(c.name) && NameOk(name)
    ensures StartsWith(Pair(c), name + "=") <==> c.name == name
  {
    var p, q := Pair(c), name + "=";
    IndexOfJoined(c.name, '=', c.value);
    if StartsWith(p, q) {
      assert p == name + ['='] + p[|q|..];
      IndexOfJoined(name, '=', p[|q|..]);
      assert c.name == p[..|c.name|];
    }
    if c.name == name {
      assert p[..|q|] == q;
    }
  }

  lemma {:induction false} FindPair(jar: seq<Cookie>, name: string)
    requires WellFormed(jar) && NameOk(name)
    ensures var i := FirstWith(Pairs(jar), name + "=");
      && (i == |jar| <==> Lookup(jar, name).None?)
      && (i < |jar| ==> Pairs(jar)[i] == name + "=" + Lookup(jar, name).value)
    decreases |jar|
  {
    if jar != [] {
      PairStarts(jar[0], name);
      var rest := jar[1..];
      assert WellFormed(rest) by {
        forall k | 0 <= k < |rest| ensures NameOk(rest[k].name) && ValueOk(rest[k].value) {
          assert rest[k] == jar[k + 1];
        }
      }
      assert Pairs(jar)[1..] == Pairs(rest);
      FindPair(rest, name);
    }
  }

  /** The second piece of `name=value` split at `=` is the first piece of the value. */
  lemma SecondPiece(name: string, value: string)
    requires '=' !in name
    ensures |Split(name + "=" + value, '=')| >= 2
    ensures Split(name + "=" + value, '=')[1] == Split(value, '=')[0]
  {
    var s := name + "=" + value;
    IndexOfJoined(name, '=', value);
    assert s[|name| + 1..] == value;
  }

  /** `getCookie` on the listing of a page's cookies reads the cookie of that name. */
  lemma ReadJar(jar: seq<Cookie>, name: string)
    requires WellFormed(jar) && NameOk(name)
    ensures GetCookie(Some(CookieString(jar)), name) == JarValue(jar, name)
  {
    if jar == [] {
      assert CookieString(jar) == "";
      assert Split("", ';') == [""];
      assert Segments("") == [""];
      assert !StartsWith("", name + "=");
    } else {
      SegmentsOfJar(jar);
      FindPair(jar, name);
      var i := FirstWith(Pairs(jar), name + "=");
      if i < |jar| {
        SecondPiece(name, Lookup(jar, name).value);
      }
    }
  }

  // Writing `document.cookie`

  /** A Max-Age value (RFC 6265, section 5.2.2): digits, with an optional leading `-`. */
  function DeltaSeconds(s: string): Option<int> {
    if AllDigits(s) then Some(DigitsValue(s))
    else if |s| >= 2 && s[0] == '-' && AllDigits(s[1..]) then Some(-(DigitsValue(s[1..]) as int))
    else None
  }

  /** One attribute: the lifetime when it is a well-formed Max-Age, named in any case. */
  function AttrMaxAge(attr: string): Option<int> {
    var t := Trim(attr);
    if '=' !in t then None
    else
      var i := IndexOf(t, '=');
      if Lower(Trim(t[..i])) == "max-age" then DeltaSeconds(Trim(t[i + 1..])) else None
  }

  /** The last well-formed Max-Age of the attributes. */
  function MaxAge(attrs: seq<string>): Option<int>
    decreases |attrs|
  {
    if attrs == [] then None
    else
      match AttrMaxAge(attrs[|attrs| - 1])
      case Some(n) => Some(n)
      case None => MaxAge(attrs[..|attrs| - 1])
  }

  /** The browser's reading of an assigned cookie string: the name and the value before the
      first `;`, split at the first `=` and trimmed, and the lifetime. A string without `=`
      before the first `;`, or with an empty name, is ignored. */
  function ParseSetCookie(header: string): Option<(Cookie, Option<int>)> {
    var parts := Split(header, ';');
    var nv := parts[0];
    if '=' !in nv then None
    else
      var i := IndexOf(nv, '=');
      var name := Trim(nv[..i]);
      if name == "" then None else Some((Cookie(name, Trim(nv[i + 1..])), MaxAge(parts[1..])))
  }

  /** `document.cookie = header`. */
  function Assign(jar: seq<Cookie>, header: string): (r: seq<Cookie>)
    ensures ParseSetCookie(header).None? ==> r == jar
  {
    match ParseSetCookie(header)
    case None => jar
    case Some((c, age)) => if age.Some? && age.value <= 0 then Without(jar, c.name) else Put(jar, c)
  }

  /** Trimming keeps a part of the text, with no white space at its ends. */
  lemma TrimKeeps(s: string, c: char)
    requires c !in s
    ensures c !in Trim(s) && Tight(Trim(s))
  {
    TrimmedShape(s, JavaScript);
  }

  /** Whatever is assigned, the page's cookies stay well formed, one per name. */
  lemma AssignOk(jar: seq<Cookie>, header: string)
    requires JarOk(jar)
    ensures JarOk(Assign(jar, header))
  {
    var p := ParseSetCookie(header);
    if p.Some? {
      var nv := Split(header, ';')[0];
      var i := IndexOf(nv, '=');
      assert ';' !in nv[..i] && '=' !in nv[..i] && ';' !in nv[i + 1..];
      TrimKeeps(nv[..i], ';');
      TrimKeeps(nv[..i], '=');
      TrimKeeps(nv[i + 1..], ';');
      var c := p.value.0;
      if p.value.1.Some? && p.value.1.value <= 0 {
        WithoutOk(jar, c.name);
      } else {
        PutOk(jar, c);
      }
    }
  }

  // The two assignments the helpers make

  /** The string `setCookie(name, value, days)` assigns. */
  function SetCookieHeader(name: string, value: string, days: int): (header: string)
    ensures |header| > |name| && header[..|name| + 1] == name + "="
  {
    name + "=" + Percent.Encode(value, Percent.UriComponent) + "; max-age=" + IntToString(days * Day) + "; path=/"
  }

  /** The string `clearCookie(name)` assigns. */
  function ClearCookieHeader(name: string): (header: string)
    ensures |header| > |name| && header[..|name| + 1] == name + "=" && header[|name| + 1..] == "; max-age=0; path=/"
  {
    name + "=; max-age=0; path=/"
  }

  lemma DeltaOfPrinted(n: int)
    ensures DeltaSeconds(IntToString(n)) == Some(n)
  {
    var s := IntToString(n);
    if n < 0 {
      assert s[1..] == NatToString(-n);
      NatToStringParses(-n);
      assert !IsDigit(s[0]);
    } else {
      NatToStringParses(n);
    }
  }

  /** Splitting at the first separator. */
  lemma SplitAt(a: string, b: string, c: char)
    requires c !in a
    ensures Split(a + [c] + b, c) == [a] + Split(b, c)
  {
    IndexOfJoined(a, c, b);
    var s := a + [c] + b;
    assert s[..|a|] == a && s[|a| + 1..] == b;
  }

  /** An attribute ` key=value` with trimmed pieces counts as a lifetime only under the
      Max-Age key. */
  lemma AttrOf(key: string, v: string)
    requires key != [] && Tight(key) && '=' !in key && Tight(v)
    ensures AttrMaxAge(" " + key + "=" + v) == if Lower(key) == "max-age" then DeltaSeconds(v) else None
  {
    var t := key + "=" + v;
    AttrPieces(key, v);
    assert Trim(t[..|key|]) == key && Trim(t[|key| + 1..]) == v;
  }

  /** How the browser cuts ` key=value`: trimmed, it is `key=value`, and its first `=` is
      the one after the key. */
  lemma AttrPieces(key: string, v: string)
    requires key != [] && Tight(key) && '=' !in key && Tight(v)
    ensures var t := key + "=" + v;
      && Trim(" " + key + "=" + v) == t && '=' in t && IndexOf(t, '=') == |key|
      && t[..|key|] == key && t[|key| + 1..] == v
      && Trim(key) == key && Trim(v) == v
  {
    var t := key + "=" + v;
    assert t[0] == key[0];
    if v != [] {
      assert t[|t| - 1] == v[|v| - 1];
      TrimTight(v);
    } else {
      assert t[|t| - 1] == '=';
      assert Trim(v) == v;
    }
    TrimTight(t);
    assert " " + key + "=" + v == " " + t;
    IndexOfJoined(key, '=', v);
    assert t[..|key|] == key && t[|key| + 1..] == v;
    TrimTight(key);
  }

  lemma PrintedTight(n: int)
    ensures Tight(IntToString(n)) && ';' !in IntToString(n)
  {
    var d := IntToString(n);
    IntToStringChars(n);
    assert d[0] == '-' || IsDigit(d[0]);
    assert d[|d| - 1] == '-' || IsDigit(d[|d| - 1]);
  }

  /** The three pieces of both assignments. */
  lemma OwnParts(a: string, d: string)
    requires ';' !in a && ';' !in d
    ensures Split(a + "; max-age=" + d + "; path=/", ';') == [a, " max-age=" + d, " path=/"]
  {
    var b, e := " max-age=" + d, " path=/";
    assert ';' !in b && ';' !in e;
    assert a + "; max-age=" + d + "; path=/" == a + [';'] + (b + [';'] + e);
    SplitAt(a, b + [';'] + e, ';');
    SplitAt(b, e, ';');
    assert Split(e, ';') == [e];
  }

  lemma PathAttr()
    ensures AttrMaxAge(" path=/") == None
  {
    assert !JsSpace('/') && !JsSpace('p') && !JsSpace('h');
    AttrOf("path", "/");
    assert Lower("path")[0] != 'm';
  }

  lemma MaxAgeAttr(n: int)
    ensures AttrMaxAge(" max-age=" + IntToString(n)) == Some(n)
  {
    PrintedTight(n);
    assert !JsSpace('m') && !JsSpace('e');
    AttrOf("max-age", IntToString(n));
    assert " " + "max-age" + "=" + IntToString(n) == " max-age=" + IntToString(n);
    assert Lower("max-age") == "max-age";
    DeltaOfPrinted(n);
  }

  /** Their attributes give the lifetime written. */
  lemma OwnAttrs(n: int)
    ensures MaxAge([" max-age=" + IntToString(n), " path=/"]) == Some(n)
  {
    var x := " max-age=" + IntToString(n);
    PathAttr();
    MaxAgeAttr(n);
    assert [x, " path=/"][..1] == [x];
    assert [x][..0] == [];
  }

  /** Both assignments are read as written: the name, the value, and the lifetime. */
  lemma ParseOwn(name: string, v: string, n: int)
    requires NameOk(name) && ValueOk(v) && '=' !in v
    ensures ParseSetCookie(name + "=" + v + "; max-age=" + IntToString(n) + "; path=/")
      == Some((Cookie(name, v), Some(n)))
  {
    var d := IntToString(n);
    PrintedTight(n);
    var a := name + "=" + v;
    OwnParts(a, d);
    OwnAttrs(n);
    var parts := Split(a + "; max-age=" + d + "; path=/", ';');
    assert parts[1..] == [" max-age=" + d, " path=/"];
    NameValueRead(name, v);
  }

  /** A `name=value` pair with trimmed pieces splits back into them. */
  lemma NameValueRead(name: string, v: string)
    requires NameOk(name) && Tight(v)
    ensures var a := name + "=" + v;
      && '=' in a && IndexOf(a, '=') == |name|
      && Trim(a[..|name|]) == name && Trim(a[|name| + 1..]) == v
  {
    var a := name + "=" + v;
    assert a[|name|] == '=';
    IndexOfJoined(name, '=', v);
    assert a[..|name|] == name && a[|name| + 1..] == v;
    TrimTight(name);
    if v != [] {
      TrimTight(v);
    }
  }

  lemma EncodedTight(value: string)
    ensures var e := Percent.Encode(value, Percent.UriComponent);
      ValueOk(e) && '=' !in e
  {
    var e := Percent.Encode(value, Percent.UriComponent);
    Percent.EncodedHasNoSeparators(value, Percent.UriComponent);
    if e != [] {
      assert Percent.Encoded(e[0], Percent.UriComponent) && Percent.Encoded(e[|e| - 1], Percent.UriComponent);
    }
  }

  lemma AssignParsed(jar: seq<Cookie>, h: string, c: Cookie, age: int)
    requires ParseSetCookie(h) == Some((c, Some(age)))
    ensures Assign(jar, h) == if age <= 0 then Without(jar, c.name) else Put(jar, c)
  {
  }

  /** The browser stores what `setCookie` assigns with a positive lifetime under its name,
      encoded. */
  lemma SetStores(jar: seq<Cookie>, name: string, value: string, days: int)
    requires NameOk(name) && days > 0
    ensures Assign(jar, SetCookieHeader(name, value, days)) == Put(jar, Cookie(name, Percent.Encode(value, Percent.UriComponent)))
  {
    var e := Percent.Encode(value, Percent.UriComponent);
    var age := days * Day;
    assert age > 0 by {
      assert Day == 86400;
    }
    EncodedTight(value);
    ParseOwn(name, e, age);
    var h := SetCookieHeader(name, value, days);
    assert h == name + "=" + e + "; max-age=" + IntToString(age) + "; path=/";
    AssignParsed(jar, h, Cookie(name, e), age);
  }

  /** The browser drops the cookie `clearCookie` names. */
  lemma ClearRemoves(jar: seq<Cookie>, name: string)
    requires NameOk(name)
    ensures Assign(jar, ClearCookieHeader(name)) == Without(jar, name)
  {
    assert IntToString(0) == "0";
    assert ClearCookieHeader(name) == name + "=" + "" + "; max-age=" + IntToString(0) + "; path=/";
    ParseOwn(name, "", 0);
    AssignParsed(jar, ClearCookieHeader(name), Cookie(name, ""), 0);
  }

  /** An encoded value reads back as the value. */
  lemma ReadEncoded(value: string)
    ensures var e := Percent.Encode(value, Percent.UriComponent);
      DecodeComponent(Split(e, '=')[0]) == Ok(value)
  {
    var e := Percent.Encode(value, Percent.UriComponent);
    EncodedTight(value);
    assert Split(e, '=') == [e];
    Percent.DecodeEncode(value, Percent.UriComponent);
  }

  /** After a cookie is stored, reading its name reads it, reading any other name reads as
      before. */
  lemma PutRead(jar: seq<Cookie>, c: Cookie, m: string)
    requires JarOk(jar) && NameOk(c.name) && ValueOk(c.value) && NameOk(m)
    ensures GetCookie(Some(CookieString(Put(jar, c))), m)
      == if m == c.name then JarValue([c], m) else GetCookie(Some(CookieString(jar)), m)
  {
    PutOk(jar, c);
    LookupPut(jar, c, m);
    ReadJar(Put(jar, c), m);
    ReadJar(jar, m);
  }

  /** `setCookie` then `getCookie` gives the value back, whatever it holds, as long as the
      lifetime is positive; every other cookie is read as before. */
  lemma SetThenGet(jar: seq<Cookie>, name: string, value: string, days: int, other: string)
    requires JarOk(jar) && NameOk(name) && NameOk(other) && days > 0
    ensures var after := Assign(jar, SetCookieHeader(name, value, days));
      && JarOk(after)
      && GetCookie(Some(CookieString(after)), name) == Ok(Some(value))
      && (other != name ==> GetCookie(Some(CookieString(after)), other) == GetCookie(Some(CookieString(jar)), other))
  {
    var c := Cookie(name, Percent.Encode(value, Percent.UriComponent));
    EncodedTight(value);
    SetStores(jar, name, value, days);
    PutOk(jar, c);
    PutRead(jar, c, name);
    PutRead(jar, c, other);
    ReadEncoded(value);
  }

  /** `clearCookie` then `getCookie` gives nothing; the other cookies are read as before. */
  lemma ClearThenGet(jar: seq<Cookie>, name: string, other: string)
    requires JarOk(jar) && NameOk(name) && NameOk(other)
    ensures var after := Assign(jar, ClearCookieHeader(name));
      && JarOk(after)
      && GetCookie(Some(CookieString(after)), name) == Ok(None)
      && (other != name ==> GetCookie(Some(CookieString(after)), other) == GetCookie(Some(CookieString(jar)), other))
  {
    ClearRemoves(jar, name);
    var after := Without(jar, name);
    WithoutOk(jar, name);
    LookupWithout(jar, name, name);
    LookupWithout(jar, name, other);
    ReadJar(after, name);
    ReadJar(after, other);
    ReadJar(jar, other);
  }

  // The token store

  /** `getToken` / `getRefreshToken`: a truthy stored value first, the cookie otherwise; on a
      page rendered on the server there is neither. */
  function ReadToken(inBrowser: bool, storage: map<string, string>, jar: seq<Cookie>, key: string)
    : (r: Result<Option<string>, string>)
    ensures !inBrowser ==> r == Ok(None)
    ensures inBrowser && key in storage && storage[key] != "" ==> r == Ok(Some(storage[key]))
  {
    if inBrowser && key in storage && storage[key] != "" then Ok(Some(storage[key]))
    else GetCookie(if inBrowser then Some(CookieString(jar)) else None, key)
  }

  lemma KeysOk()
    ensures NameOk(AccessKey) && NameOk(RefreshKey) && AccessKey != RefreshKey
  {
    assert AccessKey[0] == 'a' && AccessKey[|AccessKey| - 1] == 'n';
    assert RefreshKey[0] == 'r' && RefreshKey[|RefreshKey| - 1] == 'n';
    assert AccessKey[0] != RefreshKey[0];
  }

  /** After `setToken(token)` in a browser, `getToken` gives the token: from storage, or, for
      the empty token storage treats as absent, from the cookie; the refresh token reads
      as before. */
  lemma SetTokenThenGet(storage: map<string, string>, jar: seq<Cookie>, token: string)
    requires JarOk(jar)
    ensures var s, j := storage[AccessKey := token], Assign(jar, SetCookieHeader(AccessKey, token, DefaultDays));
      && ReadToken(true, s, j, AccessKey) == Ok(Some(token))
      && ReadToken(true, s, j, RefreshKey) == ReadToken(true, storage, jar, RefreshKey)
  {
    var s, j := storage[AccessKey := token], Assign(jar, SetCookieHeader(AccessKey, token, DefaultDays));
    KeysOk();
    SetThenGet(jar, AccessKey, token, DefaultDays, RefreshKey);
    StoredRead(s, j, AccessKey, GetCookie(Some(CookieString(j)), AccessKey));
    if RefreshKey in storage {
      assert s[RefreshKey] == storage[RefreshKey];
    }
  }

  /** A reading in a browser: the truthy stored value, or else the cookie's. */
  lemma StoredRead(storage: map<string, string>, jar: seq<Cookie>, key: string, cookie: Result<Option<string>, string>)
    requires cookie == GetCookie(Some(CookieString(jar)), key)
    ensures ReadToken(true, storage, jar, key) == if key in storage && storage[key] != "" then Ok(Some(storage[key])) else cookie
  {
  }

  /** After `clear()` in a browser neither token can be read. */
  lemma ClearThenGetNothing(storage: map<string, string>, jar: seq<Cookie>)
    requires JarOk(jar)
    ensures var s := storage - {AccessKey, RefreshKey};
      var j := Assign(Assign(jar, ClearCookieHeader(AccessKey)), ClearCookieHeader(RefreshKey));
      && ReadToken(true, s, j, AccessKey) == Ok(None)
      && ReadToken(true, s, j, RefreshKey) == Ok(None)
  {
    KeysOk();
    ClearThenGet(jar, AccessKey, RefreshKey);
    var j1 := Assign(jar, ClearCookieHeader(AccessKey));
    ClearThenGet(j1, RefreshKey, AccessKey);
  }

  /** The store `auth` works on: the page's `localStorage` and cookies, and whether there is
      a page at all (`typeof window` / `typeof document`). */
  class TokenStore {
    const inBrowser: bool
    var storage: map<string, string>
    var jar: seq<Cookie>

    ghost predicate Valid()
      reads this
    {
      JarOk(jar)
    }

    constructor(inBrowser: bool, storage: map<string, string>, jar: seq<Cookie>)
      requires JarOk(jar)
      ensures Valid() && this.inBrowser == inBrowser && this.storage == storage && this.jar == jar
    {
      this.inBrowser := inBrowser;
      this.storage := storage;
      this.jar := jar;
    }

    /** `document.cookie`, when there is a document. */
    function DocumentCookie(): (r: Option<string>)
      reads this
      ensures r.Some? <==> inBrowser
    {
      if inBrowser then Some(CookieString(jar)) else None
    }

    /** `storage.getItem(key)`, `null` when there is no storage or no such item. */
    function GetItem(key: string): (r: Option<string>)
      reads this
      ensures r.Some? <==> inBrowser && key in storage
    {
      if inBrowser && key in storage then Some(storage[key]) else None
    }

    /** `document.cookie = header`. */
    method AssignCookie(header: string)
      requires Valid()
      modifies this
      ensures Valid() && jar == Assign(old(jar), header) && storage == old(storage)
    {
      AssignOk(jar, header);
      jar := Assign(jar, header);
    }

    /** `setCookie(name, value, days)`. */
    method SetCookie(name: string, value: string, days: int)
      requires Valid()
      modifies this
      ensures Valid() && storage == old(storage)
      ensures jar == if inBrowser then Assign(old(jar), SetCookieHeader(name, value, days)) else old(jar)
    {
      if !inBrowser {
        return;
      }
      AssignCookie(SetCookieHeader(name, value, days));
    }

    /** `clearCookie(name)`. */
    method ClearCookie(name: string)
      requires Valid()
      modifies this
      ensures Valid() && storage == old(storage)
      ensures jar == if inBrowser then Assign(old(jar), ClearCookieHeader(name)) else old(jar)
    {
      if !inBrowser {
        return;
      }
      AssignCookie(ClearCookieHeader(name));
    }

    /** `getToken()`, and `getRefreshToken()` with the other key. */
    method Get(key: string) returns (r: Result<Option<string>, string>)
      ensures r == ReadToken(inBrowser, storage, jar, key)
    {
      var token := GetItem(key);
      if token.Some? && token.value != "" {
        return Ok(token);
      }
      r := GetCookie(DocumentCookie(), key);
    }

    method GetToken() returns (r: Result<Option<string>, string>)
      ensures r == ReadToken(inBrowser, storage, jar, AccessKey)
    {
      r := Get(AccessKey);
    }

    method GetRefreshToken() returns (r: Result<Option<string>, string>)
      ensures r == ReadToken(inBrowser, storage, jar, RefreshKey)
    {
      r := Get(RefreshKey);
    }

    /** `setToken(token)`: storage and cookie both. */
    method SetToken(token: string)
      requires Valid()
      modifies this
      ensures Valid()
      ensures storage == if inBrowser then old(storage)[AccessKey := token] else old(storage)
      ensures jar == if inBrowser then Assign(old(jar), SetCookieHeader(AccessKey, token, DefaultDays)) else old(jar)
    {
      if inBrowser {
        storage := storage[AccessKey := token];
      }
      SetCookie(AccessKey, token, DefaultDays);
    }

    /** `setSession(session)`: the access token as `setToken` does; the refresh token only
      when the session has a truthy one. */
    method SetSession(accessToken: string, refreshToken: Option<string>)
      requires Valid()
      modifies this
      ensures Valid()
      ensures var given := refreshToken.Some? && refreshToken.value != "";
        && storage == (if !inBrowser then old(storage)
                       else if given then old(storage)[AccessKey := accessToken][RefreshKey := refreshToken.value]
                       else old(storage)[AccessKey := accessToken])
        && jar == (if !inBrowser then old(jar)
                   else
                     var j := Assign(old(jar), SetCookieHeader(AccessKey, accessToken, DefaultDays));
                     if given then Assign(j, SetCookieHeader(RefreshKey, refreshToken.value, DefaultDays)) else j)
    {
      SetToken(accessToken);
      if inBrowser && refreshToken.Some? && refreshToken.value != "" {
        storage := storage[RefreshKey := refreshToken.value];
      }
      if refreshToken.Some? && refreshToken.value != "" {
        SetCookie(RefreshKey, refreshToken.value, DefaultDays);
      }
    }

    /** `clear()`: both items out of storage, both cookies expired. */
    method Clear()
      requires Valid()
      modifies this
      ensures Valid()
      ensures storage == if inBrowser then old(storage) - {AccessKey, RefreshKey} else old(storage)
      ensures jar == if inBrowser then Assign(Assign(old(jar), ClearCookieHeader(AccessKey)), ClearCookieHeader(RefreshKey))
                     else old(jar)
    {
      if inBrowser {
        storage := storage - {AccessKey};
        storage := storage - {RefreshKey};
      }
      ClearCookie(AccessKey);
      ClearCookie(RefreshKey);
    }
  }

  /** A session without a truthy refresh token leaves the refresh token as it was; one with
      it makes `getRefreshToken` give it back; either way `getToken` gives the access token. */
  lemma SessionThenGet(storage: map<string, string>, jar: seq<Cookie>, accessToken: string, refreshToken: Option<string>)
    requires JarOk(jar)
    ensures var given := refreshToken.Some? && refreshToken.value != "";
      var s1, j1 := storage[AccessKey := accessToken], Assign(jar, SetCookieHeader(AccessKey, accessToken, DefaultDays));
      var s2 := if given then s1[RefreshKey := refreshToken.value] else s1;
      var j2 := if given then Assign(j1, SetCookieHeader(RefreshKey, refreshToken.value, DefaultDays)) else j1;
      && ReadToken(true, s2, j2, AccessKey) == Ok(Some(accessToken))
      && (given ==> ReadToken(true, s2, j2, RefreshKey) == Ok(Some(refreshToken.value)))
      && (!given ==> ReadToken(true, s2, j2, RefreshKey) == ReadToken(true, storage, jar, RefreshKey))
  {
    KeysOk();
    SetTokenThenGet(storage, jar, accessToken);
    var j1 := Assign(jar, SetCookieHeader(AccessKey, accessToken, DefaultDays));
    SetThenGet(jar, AccessKey, accessToken, DefaultDays, RefreshKey);
    if refreshToken.Some? && refreshToken.value != "" {
      SetThenGet(j1, RefreshKey, refreshToken.value, DefaultDays, AccessKey);
    }
  }
}
