/** The refresh-token cookie of app/core/security.py: `set_refresh_cookie` and
    `clear_refresh_cookie` add a `Set-Cookie` to the response, the second one through
    Starlette's `delete_cookie`, which sends an empty, already expired cookie. A browser's
    cookie store, reduced to what these two cookies touch, says what the pair achieves. */
module Security {

  import opened Outcome
  import Config

  const RefreshCookieName := "refresh_token"

  /** Thirty and seven days, in seconds. */
  const RememberMaxAge := 60 * 60 * 24 * 30
  const SessionMaxAge := 60 * 60 * 24 * 7

  /** The attributes of one `Set-Cookie` header. */
  datatype Cookie = Cookie(
    name: string,
    value: string,
    maxAge: int,
    expires: Option<int>,
    path: string,
    domain: string,
    secure: bool,
    httpOnly: bool,
    sameSite: string)

  /** The cookie `set_refresh_cookie` sends. */
  function RefreshCookie(cfg: Config.Settings, token: string, remember: bool): (c: Cookie)
    ensures c.name == RefreshCookieName && c.value == token
    ensures c.maxAge == (if remember then 2592000 else 604800) && c.maxAge > 0
    ensures c.httpOnly && c.path == "/" && c.domain == cfg.cookieDomain && c.expires.None?
    ensures c.secure <==> cfg.appEnv == Config.Prod
    ensures c.sameSite == (if cfg.appEnv == Config.Prod then "none" else "lax")
  {
    Cookie(RefreshCookieName, token, if remember then RememberMaxAge else SessionMaxAge, None, "/",
           cfg.cookieDomain, Config.CookieSecure(cfg.appEnv), true, Config.CookieSameSite(cfg.appEnv))
  }

  /** The cookie `delete_cookie(key, domain, path="/")` sends: Starlette's defaults for the
      flags it is not given (not secure, not http-only, SameSite lax), an empty value and an
      age of zero. */
  function ExpiredCookie(cfg: Config.Settings): (c: Cookie)
    ensures c.name == RefreshCookieName && c.domain == cfg.cookieDomain && c.path == "/"
    ensures c.maxAge == 0 && c.expires == Some(0) && c.value == ""
    ensures !c.secure && !c.httpOnly && c.sameSite == "lax"
  {
    Cookie(RefreshCookieName, "", 0, Some(0), "/", cfg.cookieDomain, false, false, "lax")
  }

  /** A cookie is identified by its name, domain and path; a later cookie with the same three
      replaces the earlier one. */
  datatype CookieKey = CookieKey(name: string, domain: string, path: string)

  function KeyOf(c: Cookie): CookieKey {
    CookieKey(c.name, c.domain, c.path)
  }

  /** How a browser stores one `Set-Cookie`: an age of zero or less removes the cookie with
      that key, any other replaces its value. */
  function Store(jar: map<CookieKey, string>, c: Cookie): (r: map<CookieKey, string>)
    ensures c.maxAge <= 0 ==> KeyOf(c) !in r
    ensures c.maxAge > 0 ==> KeyOf(c) in r && r[KeyOf(c)] == c.value
    ensures forall k :: k != KeyOf(c) ==> (k in r <==> k in jar) && (k in r ==> r[k] == jar[k])
  {
    if c.maxAge <= 0 then jar - {KeyOf(c)} else jar[KeyOf(c) := c.value]
  }

  /** The response under construction: its `Set-Cookie` headers in the order they were added. */
  class Response {
    var cookies: seq<Cookie>

    constructor()
      ensures cookies == []
    {
      cookies := [];
    }

    /** `set_refresh_cookie`. */
    method SetRefreshCookie(cfg: Config.Settings, token: string, remember: bool)
      modifies this
      ensures cookies == old(cookies) + [RefreshCookie(cfg, token, remember)]
    {
      cookies := cookies + [RefreshCookie(cfg, token, remember)];
    }

    /** `clear_refresh_cookie`. */
    method ClearRefreshCookie(cfg: Config.Settings)
      modifies this
      ensures cookies == old(cookies) + [ExpiredCookie(cfg)]
    {
      cookies := cookies + [ExpiredCookie(cfg)];
    }
  }

  /** What a browser's store holds after taking the headers in order. */
  function StoreAll(jar: map<CookieKey, string>, cs: seq<Cookie>): map<CookieKey, string>
    decreases |cs|
  {
    if cs == [] then jar else StoreAll(Store(jar, cs[0]), cs[1..])
  }

  function RefreshKey(cfg: Config.Settings): CookieKey {
    CookieKey(RefreshCookieName, cfg.cookieDomain, "/")
  }

  /** Setting and clearing address the same cookie: both carry the name, domain and path of
      the refresh key. */
  lemma SameCookie(cfg: Config.Settings, token: string, remember: bool)
    ensures KeyOf(RefreshCookie(cfg, token, remember)) == KeyOf(ExpiredCookie(cfg)) == RefreshKey(cfg)
  {
  }

  /** The browser then holds the token, unchanged, under the refresh key, and nothing else it
      holds changes. */
  lemma SetStoresToken(cfg: Config.Settings, jar: map<CookieKey, string>, token: string, remember: bool)
    ensures var r := Store(jar, RefreshCookie(cfg, token, remember));
      && RefreshKey(cfg) in r && r[RefreshKey(cfg)] == token
      && r.Keys == jar.Keys + {RefreshKey(cfg)}
  {
  }

  lemma {:induction false} StoreAllAppend(jar: map<CookieKey, string>, cs: seq<Cookie>, c: Cookie)
    ensures StoreAll(jar, cs + [c]) == Store(StoreAll(jar, cs), c)
    decreases |cs|
  {
    if cs == [] {
      assert cs + [c] == [c];
    } else {
      assert (cs + [c])[1..] == cs[1..] + [c];
      StoreAllAppend(Store(jar, cs[0]), cs[1..], c);
    }
  }

  /** Whatever headers came before, a response that ends with the clearing cookie leaves the
      browser without a refresh token, and with every other cookie as those headers left it. */
  lemma ClearRemovesToken(cfg: Config.Settings, jar: map<CookieKey, string>, cs: seq<Cookie>)
    ensures var before, after := StoreAll(jar, cs), StoreAll(jar, cs + [ExpiredCookie(cfg)]);
      && RefreshKey(cfg) !in after
      && after == before - {RefreshKey(cfg)}
  {
    StoreAllAppend(jar, cs, ExpiredCookie(cfg));
  }
}
