/** The auth endpoints of app/routes/auth.py: the Google token exchange, the profile, the
    cookie-based refresh, logout, the password-login proxy and signup. Each endpoint is a
    decision on the outcome of its repository or upstream call, plus the cookies it adds to
    the response. */
module AuthRoutes {

  import opened Outcome
  import opened Text
  import opened JsonValue
  import opened Supabase
  import opened AuthRepository
  import Security
  import Deps
  import Config

  /** FastAPI's answer to a request body that fails its model (`min_length` and the like). */
  const BodyInvalid := HttpFault(422, Text("Request body failed validation"))
  const RefreshCookieMissing := HttpFault(401, Coded("INVALID_REFRESH_TOKEN", "Refresh token cookie missing"))
  const LoginSettingsMissing := HttpFault(500, Text("Supabase 설정(SUPABASE_URL / SUPABASE_ANON_KEY)이 비어 있습니다."))

  const ExchangePath := "token?grant_type=id_token"

  // POST /auth/google/exchange-id-token

  /** The token exchange: a body whose `id_token` is shorter than ten characters is refused
      before anything is sent; a grant sets the refresh cookie for the session only. */
  method GoogleExchange(up: Upstream, resp: Security.Response, s: Config.Settings, idToken: string, now: string)
    returns (r: Result<GoogleGrant, Fault>)
    modifies up, resp
    ensures |idToken| < 10 ==> r == Err(BodyInvalid) && up.sent == old(up.sent) && resp.cookies == old(resp.cookies)
    ensures |idToken| >= 10 ==>
      var req := AuthPost(s, ExchangePath, Some(GoogleExchangePayload(idToken, None)), None);
      var data := if req.Err? then Err(req.error) else CheckedJson(up.reply(old(up.sent), req.value), req.value.url);
      var grant := ExchangeGoogle(data, now);
      && up.sent == old(up.sent) + (if req.Ok? then [req.value] else [])
      && (grant.Err? ==> r == Err(grant.error) && resp.cookies == old(resp.cookies))
      && (grant.Ok? ==>
            r == Ok(grant.value.0)
            && resp.cookies == old(resp.cookies) + [Security.RefreshCookie(s, PyStr(grant.value.1), false)])
  {
    if |idToken| < 10 {
      return Err(BodyInvalid);
    }
    var data := ExchangeGoogleIdToken(up, s, idToken, None);
    var grant := ExchangeGoogle(data, now);
    if grant.Err? {
      return Err(grant.error);
    }
    resp.SetRefreshCookie(s, PyStr(grant.value.1), false);
    return Ok(grant.value.0);
  }

  // GET /auth/me

  /** The profile endpoint as written: `current_user_profile` is given the normalised user of
      `get_current_user` (`{id, email, raw}`), where no `identities` key exists. */
  function MeAsWritten(user: Json): (r: Result<Profile, Fault>)
    requires user.Obj?
    ensures r.Ok? ==> Field(user, "id") == Str(r.value.id)
    ensures !PyTruthy(Field(user, "identities")) && r.Ok? ==> r.value.meta.None?
  {
    CurrentUserProfile(user)
  }

  /** Whatever the auth service reports, the profile the endpoint returns never has a `meta`. */
  lemma MeNeverShowsMeta(v: Json)
    requires Deps.UserPayload(v).Ok?
    ensures var p := MeAsWritten(Deps.UserPayload(v).value);
      p.Ok? ==> p.value.meta.None?
  {
  }

  /** A user with a named identity: `current_user_profile` of the service's record shows the
      name, the endpoint's answer for the same user does not. */
  lemma MeDropsIdentity()
    ensures var v := Obj(map["id" := Str("u-1"), "identities" := Arr([Obj(map["identity_data" := Obj(map["name" := Str("Kim")])])])]);
      && Deps.UserPayload(v).Ok?
      && CurrentUserProfile(v) == Ok(Profile("u-1", None, Some(map["name" := Str("Kim"), "avatar_url" := Null])))
      && MeAsWritten(Deps.UserPayload(v).value) == Ok(Profile("u-1", None, None))
  {
    var v := Obj(map["id" := Str("u-1"), "identities" := Arr([Obj(map["identity_data" := Obj(map["name" := Str("Kim")])])])]);
    var u := Deps.UserPayload(v).value;
    assert Field(u, "identities") == Null;
    assert Field(u, "email") == Null;
  }

  /** The profile endpoint reading the service's record kept under `raw`. */
  function Me(user: Json): (r: Result<Profile, Fault>)
    requires user.Obj?
    ensures Field(user, "raw").Obj? && r.Ok? ==>
      Field(Field(user, "raw"), "id") == Str(r.value.id) && MetaOf(Field(user, "raw")) == Ok(r.value.meta)
  {
    var raw := Field(user, "raw");
    if raw.Obj? then CurrentUserProfile(raw) else CurrentUserProfile(user)
  }

  /** For every verified user, the endpoint answers the profile of the service's own record:
      the same id and e-mail, and the first identity's name and avatar when there is one. */
  lemma MeShowsServiceRecord(v: Json)
    requires Deps.UserPayload(v).Ok?
    ensures Me(Deps.UserPayload(v).value) == CurrentUserProfile(v)
    ensures Me(Deps.UserPayload(v).value).Ok? ==>
      && Me(Deps.UserPayload(v).value).value.id == Field(v, "id").s
      && (!PyTruthy(Field(v, "identities")) <==> Me(Deps.UserPayload(v).value).value.meta.None?)
  {
    var p := CurrentUserProfile(v);
    if p.Ok? && PyTruthy(Field(v, "identities")) {
      assert MetaOf(v) == Ok(p.value.meta);
    }
  }

  // POST /auth/refresh

  /** The refresh endpoint: without a non-empty `refresh_token` cookie nothing is sent;
      otherwise the refresh cookie is set again only when the service sent a new token. */
  method Refresh(up: Upstream, resp: Security.Response, s: Config.Settings, cookies: map<string, string>)
    returns (r: Result<Access, Fault>)
    modifies up, resp
    ensures "refresh_token" !in cookies || cookies["refresh_token"] == "" ==>
      r == Err(RefreshCookieMissing) && up.sent == old(up.sent) && resp.cookies == old(resp.cookies)
    ensures "refresh_token" in cookies && cookies["refresh_token"] != "" ==>
      var req := AuthPost(s, "token?grant_type=refresh_token", Some(Obj(map["refresh_token" := Str(cookies["refresh_token"])])), None);
      var data := if req.Err? then Err(req.error) else CheckedJson(up.reply(old(up.sent), req.value), req.value.url);
      var out := RefreshWithCookie(data);
      && up.sent == old(up.sent) + (if req.Ok? then [req.value] else [])
      && (out.Err? ==> r == Err(out.error) && resp.cookies == old(resp.cookies))
      && (out.Ok? ==>
            && r == Ok(out.value.0)
            && (PyTruthy(out.value.1) ==>
                  resp.cookies == old(resp.cookies) + [Security.RefreshCookie(s, PyStr(out.value.1), false)])
            && (!PyTruthy(out.value.1) ==> resp.cookies == old(resp.cookies)))
  {
    if "refresh_token" !in cookies || cookies["refresh_token"] == "" {
      return Err(RefreshCookieMissing);
    }
    var data := RefreshWithToken(up, s, cookies["refresh_token"]);
    var out := RefreshWithCookie(data);
    if out.Err? {
      return Err(out.error);
    }
    if PyTruthy(out.value.1) {
      resp.SetRefreshCookie(s, PyStr(out.value.1), false);
    }
    return Ok(out.value.0);
  }

  // POST /auth/logout

  lemma SpaceOnlyFromSpace(c: char)
    requires LowerChar(c) == ' '
    ensures c == ' '
  {
  }

  /** The token of the `Authorization` header: present exactly when the lower-cased header
      starts with "bearer ", and then everything after the first space, which is everything
      after those seven characters. */
  function LogoutToken(header: Option<string>): (r: Option<string>)
    ensures r.Some? <==> header.Some? && StartsWith(Lower(header.value), "bearer ")
    ensures r.Some? ==> r.value == header.value[7..]
  {
    if header.Some? && header.value != "" && StartsWith(Lower(header.value), "bearer ") then
      var h := header.value;
      assert h[6] == ' ' by {
        assert Lower(h)[6] == LowerChar(h[6]);
        SpaceOnlyFromSpace(h[6]);
      }
      assert ' ' !in h[..6] by {
        forall k | 0 <= k < 6 ensures h[..6][k] != ' ' {
          assert Lower(h)[..7][k] == "bearer "[k];
        }
      }
      assert h == h[..6] + [' '] + h[7..];
      IndexOfJoined(h[..6], ' ', h[7..]);
      var i := IndexOf(h, ' ');
      Some(h[i + 1..])
    else None
  }

  /** The logout endpoint: the access token of the header, if any, is revoked (a failure does
      not matter), the refresh cookie is always cleared and the answer is always `{"ok": true}`. */
  method Logout(up: Upstream, resp: Security.Response, s: Config.Settings, header: Option<string>)
    returns (r: Json)
    modifies up, resp
    ensures r == Obj(map["ok" := Bool(true)])
    ensures resp.cookies == old(resp.cookies) + [Security.ExpiredCookie(s)]
    ensures var token := LogoutToken(header);
      && (token.None? || token.value == "" ==> up.sent == old(up.sent))
      && (token.Some? && token.value != "" ==>
            var req := AuthPost(s, "logout", None, Some(token.value));
            up.sent == old(up.sent) + (if req.Ok? then [req.value] else []))
  {
    var token := LogoutToken(header);
    RevokeIfPossible(up, s, token);
    resp.ClearRefreshCookie(s);
    return Obj(map["ok" := Bool(true)]);
  }

  // POST /auth/login/password

  /** The three ways the proxy answers: the upstream body, an error that relays the upstream
      status and body, or its own error. */
  datatype LoginOutcome = Passed(data: Json) | Relayed(status: int, detail: Json) | Refused(error: Fault)

  function LoginRequest(s: Config.Settings, email: string, password: string): (r: Option<Request>)
    ensures r.Some? <==> RStripChar(s.supabaseUrl, '/') != "" && s.anonKey != ""
    ensures r.Some? ==>
      && r.value.verb == Post
      && r.value.url == RStripChar(s.supabaseUrl, '/') + "/auth/v1/token?grant_type=password"
      && r.value.headers == map["Content-Type" := "application/json", "apikey" := s.anonKey,
                                "Authorization" := "Bearer " + s.anonKey]
      && r.value.body == Some(Obj(map["email" := Str(email), "password" := Str(password)]))
  {
    var url := RStripChar(s.supabaseUrl, '/');
    if url == "" || s.anonKey == "" then None
    else
      Some(Request(Post, url + "/auth/v1/token?grant_type=password",
                   map["Content-Type" := "application/json", "apikey" := s.anonKey,
                       "Authorization" := "Bearer " + s.anonKey],
                   Some(Obj(map["email" := Str(email), "password" := Str(password)]))))
  }

  /** `resp.json()`, or `{"raw": resp.text}` when the body is not JSON. */
  function LoginData(rep: Reply): (d: Json)
    ensures rep.json.Some? ==> d == rep.json.value
    ensures rep.json.None? ==> d == Obj(map["raw" := Str(rep.text)])
  {
    if rep.json.Some? then rep.json.value else Obj(map["raw" := Str(rep.text)])
  }

  /** The password-login proxy: without a URL or an anon key it refuses before sending; an
      upstream status of 400 or more is relayed with the same status and the same body, any
      other answer is passed on. */
  method LoginWithPassword(up: Upstream, s: Config.Settings, email: string, password: string)
    returns (r: LoginOutcome)
    modifies up
    ensures LoginRequest(s, email, password).None? ==> r == Refused(LoginSettingsMissing) && up.sent == old(up.sent)
    ensures LoginRequest(s, email, password).Some? ==>
      var req := LoginRequest(s, email, password).value;
      var rep := up.reply(old(up.sent), req);
      && up.sent == old(up.sent) + [req]
      && (rep.status >= 400 ==> r == Relayed(rep.status, LoginData(rep)))
      && (rep.status < 400 ==> r == Passed(LoginData(rep)))
  {
    var req := LoginRequest(s, email, password);
    if req.None? {
      return Refused(LoginSettingsMissing);
    }
    var rep := up.Send(req.value);
    var data := LoginData(rep);
    if rep.status >= 400 {
      return Relayed(rep.status, data);
    }
    return Passed(data);
  }

  // POST /auth/signup/password

  /** `SignupPasswordReq`: a password of at least six characters and a nickname of one to
      fifty; the e-mail format check is not modelled. */
  predicate SignupBodyValid(password: string, nickname: string) {
    |password| >= 6 && 1 <= |nickname| <= 50
  }

  /** The signup endpoint: a ValueError is a 400 with its message, anything else a 500 that
      names it. */
  function Signup(auth: Result<SignUp, Fault>, insert: Result<(), Fault>,
                  email: string, password: string, nickname: string): (r: Result<Json, Fault>)
    ensures !SignupBodyValid(password, nickname) ==> r == Err(BodyInvalid)
    ensures SignupBodyValid(password, nickname) ==>
      var out := SignupWithPassword(auth, insert, email, nickname);
      && (out.Ok? ==> r == out)
      && (out.Err? && out.error.ValueError? ==> r == Err(HttpFault(400, Text(out.error.message))))
      && (out.Err? && !out.error.ValueError? ==> r == Err(HttpFault(500, Text("signup failed: " + FaultText(out.error)))))
  {
    if !SignupBodyValid(password, nickname) then Err(BodyInvalid)
    else
      match SignupWithPassword(auth, insert, email, nickname)
      case Ok(data) => Ok(data)
      case Err(ValueError(m)) => Err(HttpFault(400, Text(m)))
      case Err(e) => Err(HttpFault(500, Text("signup failed: " + FaultText(e))))
  }

  /** A sign-up that returns no user is a 400 that says so. */
  lemma SignupWithoutUser(session: Option<Session>, insert: Result<(), Fault>, email: string, password: string, nickname: string)
    requires SignupBodyValid(password, nickname)
    ensures Signup(Ok(SignUp(None, session)), insert, email, password, nickname)
            == Err(HttpFault(400, Text("Supabase sign_up failed")))
  {
  }
}
