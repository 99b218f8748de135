/** The HTTP helpers of app/db/supabase.py: reading and trimming settings, the base URL and
    headers, the auth endpoints, and the REST helpers `rest_insert`, `rest_select` and
    `rest_delete`. The Supabase service itself is an oracle: an `Upstream` object records every
    request sent to it and answers each with the reply its `reply` function gives for that
    request after the ones before it. */
module Supabase {

  import opened Outcome
  import opened Text
  import opened JsonValue
  import opened Config

  type Headers = map<string, string>

  datatype Verb = Get | Post | Delete

  /** An HTTP request: method, full URL, headers and, for POST, the JSON body. */
  datatype Request = Request(verb: Verb, url: string, headers: Headers, body: Option<Json>)

  /** An HTTP reply: status, reason phrase, body text, and the body parsed as JSON (`None`
      when the text is not JSON). */
  datatype Reply = Reply(status: int, reason: string, text: string, json: Option<Json>)

  /** A service's answers: its reply to a request, given the requests sent before it. */
  type Service = (seq<Request>, Request) -> Reply

  class Upstream {
    /** The requests sent so far, oldest first. */
    var sent: seq<Request>
    /** The service: its reply to a request, given the requests sent before it. */
    const reply: Service

    constructor(reply: Service)
      ensures sent == [] && this.reply == reply
    {
      sent := [];
      this.reply := reply;
    }

    method Send(req: Request) returns (rep: Reply)
      modifies this
      ensures sent == old(sent) + [req]
      ensures rep == reply(old(sent), req)
    {
      rep := reply(sent, req);
      sent := sent + [req];
    }
  }

  // Settings

  /** `_get_env`: a setting trimmed, with an empty one read as unset. */
  function GetEnv(v: Option<string>): (r: Option<string>)
    ensures r.Some? <==> v.Some? && Strip(v.value) != ""
    ensures r.Some? ==> r.value == Strip(v.value)
  {
    if v.Some? && Strip(v.value) != "" then Some(Strip(v.value)) else None
  }

  /** A value `_get_env` returns has no surrounding whitespace, so reading it again changes
      nothing. */
  lemma GetEnvIdempotent(v: Option<string>)
    ensures GetEnv(GetEnv(v)) == GetEnv(v)
  {
    if v.Some? {
      TrimmedIdempotent(v.value, Python);
    }
  }

  /** `_base_url`. */
  function BaseUrl(s: Settings): (r: Result<string, Fault>)
    ensures r.Err? <==> GetEnv(Some(s.supabaseUrl)).None?
    ensures r.Err? ==> r.error.ConfigError?
    ensures r.Ok? ==> r.value == RStripChar(Strip(s.supabaseUrl), '/')
    ensures r.Ok? ==> r.value == [] || r.value[|r.value| - 1] != '/'
  {
    var url := GetEnv(Some(s.supabaseUrl));
    if url.None? then Err(ConfigError("SUPABASE_URL이 설정되어 있지 않습니다."))
    else Ok(RStripChar(url.value, '/'))
  }

  /** `_base_headers`. */
  function BaseHeaders(s: Settings): (r: Result<Headers, Fault>)
    ensures r.Err? <==> GetEnv(Some(s.anonKey)).None?
    ensures r.Err? ==> r.error.ConfigError?
    ensures r.Ok? ==> r.value == map["apikey" := Strip(s.anonKey), "Content-Type" := "application/json"]
  {
    var anon := GetEnv(Some(s.anonKey));
    if anon.None? then Err(ConfigError("SUPABASE_ANON_KEY가 설정되어 있지 않습니다."))
    else Ok(map["apikey" := anon.value, "Content-Type" := "application/json"])
  }

  /** `_auth_headers`: the base headers plus the caller's bearer token. */
  function AuthHeaders(s: Settings, token: string): (r: Result<Headers, Fault>)
    ensures r.Err? <==> BaseHeaders(s).Err?
    ensures r.Ok? ==> r.value.Keys == {"apikey", "Content-Type", "Authorization"}
    ensures r.Ok? ==> r.value["Authorization"] == "Bearer " + token
    ensures r.Ok? ==> forall h :: h in BaseHeaders(s).value ==> r.value[h] == BaseHeaders(s).value[h]
  {
    var base :- BaseHeaders(s);
    Ok(base["Authorization" := "Bearer " + token])
  }

  // Replies

  /** `raise_for_status()`: a 4xx or 5xx reply becomes an HTTPError with requests' message. */
  function RaiseForStatus(rep: Reply, url: string): (r: Result<Reply, Fault>)
    ensures r.Ok? <==> !(400 <= rep.status < 600)
    ensures r.Ok? ==> r.value == rep
    ensures r.Err? ==> r.error.UpstreamError? && r.error.status == rep.status
  {
    if 400 <= rep.status < 500 then
      Err(UpstreamError(rep.status, IntToString(rep.status) + " Client Error: " + rep.reason + " for url: " + url))
    else if 500 <= rep.status < 600 then
      Err(UpstreamError(rep.status, IntToString(rep.status) + " Server Error: " + rep.reason + " for url: " + url))
    else Ok(rep)
  }

  /** `r.json()`: the body, or the JSONDecodeError (a ValueError) for a body that is not JSON. */
  function JsonBody(rep: Reply): (r: Result<Json, Fault>)
    ensures r.Ok? <==> rep.json.Some?
    ensures r.Ok? ==> r.value == rep.json.value
    ensures r.Err? ==> r.error.ValueError?
  {
    if rep.json.Some? then Ok(rep.json.value) else Err(ValueError("Expecting value"))
  }

  /** `raise_for_status()` then `r.json()`. */
  function CheckedJson(rep: Reply, url: string): (r: Result<Json, Fault>)
    ensures r.Ok? <==> !(400 <= rep.status < 600) && rep.json.Some?
    ensures r.Ok? ==> r.value == rep.json.value
    ensures 400 <= rep.status < 600 ==> r == Err(RaiseForStatus(rep, url).error)
  {
    var ok :- RaiseForStatus(rep, url);
    JsonBody(ok)
  }

  /** The body `rest_insert` returns: the JSON, or `{}` when the reply has no text. */
  function InsertBody(rep: Reply, url: string): (r: Result<Json, Fault>)
    ensures 400 <= rep.status < 600 ==> r == Err(RaiseForStatus(rep, url).error)
    ensures !(400 <= rep.status < 600) && rep.text == "" ==> r == Ok(Obj(map[]))
    ensures !(400 <= rep.status < 600) && rep.text != "" ==> r == JsonBody(rep)
  {
    var ok :- RaiseForStatus(rep, url);
    if ok.text == "" then Ok(Obj(map[])) else JsonBody(ok)
  }

  /** `rest_delete`'s count: 0 without a body, the length of a list body, 0 for any other body
      or one that is not JSON. */
  function DeleteCount(rep: Reply): (n: nat)
    ensures rep.text == "" ==> n == 0
    ensures rep.text != "" && rep.json.Some? && rep.json.value.Arr? ==> n == |rep.json.value.items|
    ensures n > 0 ==> rep.text != "" && rep.json.Some? && rep.json.value.Arr? && rep.json.value.items != []
  {
    if rep.text == "" then 0
    else if rep.json.Some? && rep.json.value.Arr? then |rep.json.value.items|
    else 0
  }

  // Requests

  /** The REST endpoint of a table, with a query string when one is given. */
  function RestUrl(s: Settings, table: string, query: Option<string>): Result<string, Fault> {
    var base :- BaseUrl(s);
    Ok(base + "/rest/v1/" + table + (if query.Some? then "?" + query.value else ""))
  }

  /** The request `rest_select` sends, or the ConfigError raised before sending one. */
  function SelectRequest(s: Settings, table: string, query: string, token: string): (r: Result<Request, Fault>)
    ensures r.Ok? <==> BaseUrl(s).Ok? && AuthHeaders(s, token).Ok?
    ensures r.Ok? ==> r.value == Request(Get, BaseUrl(s).value + "/rest/v1/" + table + "?" + query,
                                         AuthHeaders(s, token).value, None)
  {
    var url :- RestUrl(s, table, Some(query));
    var headers :- AuthHeaders(s, token);
    Ok(Request(Get, url, headers, None))
  }

  function InsertRequest(s: Settings, table: string, rows: seq<Json>, token: string): (r: Result<Request, Fault>)
    ensures r.Ok? <==> BaseUrl(s).Ok? && AuthHeaders(s, token).Ok?
    ensures r.Ok? ==> r.value == Request(Post, BaseUrl(s).value + "/rest/v1/" + table,
                                         AuthHeaders(s, token).value, Some(Arr(rows)))
  {
    var url :- RestUrl(s, table, None);
    var headers :- AuthHeaders(s, token);
    Ok(Request(Post, url, headers, Some(Arr(rows))))
  }

  /** `rest_delete` asks for the deleted rows back, which is how it counts them. */
  function DeleteRequest(s: Settings, table: string, query: string, token: string): (r: Result<Request, Fault>)
    ensures r.Ok? <==> BaseUrl(s).Ok? && AuthHeaders(s, token).Ok?
    ensures r.Ok? ==> r.value.verb == Delete && "Prefer" in r.value.headers && r.value.headers["Prefer"] == "return=representation"
    ensures r.Ok? ==> r.value.url == BaseUrl(s).value + "/rest/v1/" + table + "?" + query
  {
    var url :- RestUrl(s, table, Some(query));
    var headers :- AuthHeaders(s, token);
    Ok(Request(Delete, url, headers["Prefer" := "return=representation"], None))
  }

  /** Sends `req` when it could be built; a ConfigError stops before anything is sent. */
  method SendBuilt(up: Upstream, req: Result<Request, Fault>) returns (r: Result<Reply, Fault>)
    modifies up
    ensures req.Err? ==> r == Err(req.error) && up.sent == old(up.sent)
    ensures req.Ok? ==> up.sent == old(up.sent) + [req.value] && r == Ok(up.reply(old(up.sent), req.value))
  {
    if req.Err? {
      return Err(req.error);
    }
    var rep := up.Send(req.value);
    return Ok(rep);
  }

  /** `rest_select`. */
  method RestSelect(up: Upstream, s: Settings, table: string, query: string, token: string)
    returns (r: Result<Json, Fault>)
    modifies up
    ensures var req := SelectRequest(s, table, query, token);
      && (req.Err? ==> r == Err(req.error) && up.sent == old(up.sent))
      && (req.Ok? ==> up.sent == old(up.sent) + [req.value]
                      && r == CheckedJson(up.reply(old(up.sent), req.value), req.value.url))
  {
    var req := SelectRequest(s, table, query, token);
    var rep := SendBuilt(up, req);
    if rep.Err? {
      return Err(rep.error);
    }
    r := CheckedJson(rep.value, req.value.url);
  }

  /** `rest_insert`. */
  method RestInsert(up: Upstream, s: Settings, table: string, rows: seq<Json>, token: string)
    returns (r: Result<Json, Fault>)
    modifies up
    ensures var req := InsertRequest(s, table, rows, token);
      && (req.Err? ==> r == Err(req.error) && up.sent == old(up.sent))
      && (req.Ok? ==> up.sent == old(up.sent) + [req.value]
                      && r == InsertBody(up.reply(old(up.sent), req.value), req.value.url))
  {
    var req := InsertRequest(s, table, rows, token);
    var rep := SendBuilt(up, req);
    if rep.Err? {
      return Err(rep.error);
    }
    r := InsertBody(rep.value, req.value.url);
  }

  /** `rest_delete`: the number of rows the service says it deleted. */
  method RestDelete(up: Upstream, s: Settings, table: string, query: string, token: string)
    returns (r: Result<nat, Fault>)
    modifies up
    ensures var req := DeleteRequest(s, table, query, token);
      && (req.Err? ==> r == Err(req.error) && up.sent == old(up.sent))
      && (req.Ok? ==> up.sent == old(up.sent) + [req.value]
                      && var rep := up.reply(old(up.sent), req.value);
                         r == (if 400 <= rep.status < 600 then Err(RaiseForStatus(rep, req.value.url).error)
                               else Ok(DeleteCount(rep))))
  {
    var req := DeleteRequest(s, table, query, token);
    var rep := SendBuilt(up, req);
    if rep.Err? {
      return Err(rep.error);
    }
    var ok := RaiseForStatus(rep.value, req.value.url);
    if ok.Err? {
      return Err(ok.error);
    }
    return Ok(DeleteCount(ok.value));
  }

  // Auth endpoints

  /** The body of the Google id-token exchange: `nonce` only when one is given. */
  function GoogleExchangePayload(idToken: string, nonce: Option<string>): (p: Json)
    ensures p.Obj? && "provider" in p.fields && "id_token" in p.fields
    ensures p.fields["provider"] == Str("google") && p.fields["id_token"] == Str(idToken)
    ensures "nonce" in p.fields <==> nonce.Some? && nonce.value != ""
    ensures "nonce" in p.fields ==> p.fields["nonce"] == Str(nonce.value)
    ensures p.fields.Keys <= {"provider", "id_token", "nonce"}
  {
    var base := map["provider" := Str("google"), "id_token" := Str(idToken)];
    if nonce.Some? && nonce.value != "" then Obj(base["nonce" := Str(nonce.value)]) else Obj(base)
  }

  /** The body of the PKCE code exchange: `redirect_to` only when one is given. */
  function PkcePayload(code: string, verifier: string, redirectTo: Option<string>): (p: Json)
    ensures p.Obj? && "code" in p.fields && "code_verifier" in p.fields
    ensures p.fields["code"] == Str(code) && p.fields["code_verifier"] == Str(verifier)
    ensures "redirect_to" in p.fields <==> redirectTo.Some? && redirectTo.value != ""
  {
    var base := map["code" := Str(code), "code_verifier" := Str(verifier)];
    if redirectTo.Some? && redirectTo.value != "" then Obj(base["redirect_to" := Str(redirectTo.value)]) else Obj(base)
  }

  /** A POST to `/auth/v1/<path>` with the base headers. */
  function AuthPost(s: Settings, path: string, body: Option<Json>, token: Option<string>): (r: Result<Request, Fault>)
    ensures r.Ok? <==> BaseUrl(s).Ok? && BaseHeaders(s).Ok?
    ensures r.Ok? ==> r.value.verb == Post && r.value.url == BaseUrl(s).value + "/auth/v1/" + path && r.value.body == body
    ensures r.Ok? && token.None? ==> r.value.headers == BaseHeaders(s).value
    ensures r.Ok? && token.Some? ==> r.value.headers == BaseHeaders(s).value["Authorization" := "Bearer " + token.value]
  {
    var base :- BaseUrl(s);
    var headers :- BaseHeaders(s);
    Ok(Request(Post, base + "/auth/v1/" + path,
               if token.Some? then headers["Authorization" := "Bearer " + token.value] else headers, body))
  }

  /** Sends a built request and reads the checked JSON of the reply. */
  method CallJson(up: Upstream, req: Result<Request, Fault>) returns (r: Result<Json, Fault>)
    modifies up
    ensures req.Err? ==> r == Err(req.error) && up.sent == old(up.sent)
    ensures req.Ok? ==> up.sent == old(up.sent) + [req.value]
                        && r == CheckedJson(up.reply(old(up.sent), req.value), req.value.url)
  {
    var rep := SendBuilt(up, req);
    if rep.Err? {
      return Err(rep.error);
    }
    r := CheckedJson(rep.value, req.value.url);
  }

  /** `exchange_google_id_token`. */
  method ExchangeGoogleIdToken(up: Upstream, s: Settings, idToken: string, nonce: Option<string>)
    returns (r: Result<Json, Fault>)
    modifies up
    ensures var req := AuthPost(s, "token?grant_type=id_token", Some(GoogleExchangePayload(idToken, nonce)), None);
      && (req.Err? ==> r == Err(req.error) && up.sent == old(up.sent))
      && (req.Ok? ==> up.sent == old(up.sent) + [req.value]
                      && r == CheckedJson(up.reply(old(up.sent), req.value), req.value.url))
  {
    r := CallJson(up, AuthPost(s, "token?grant_type=id_token", Some(GoogleExchangePayload(idToken, nonce)), None));
  }

  /** `exchange_pkce_code`. */
  method ExchangePkceCode(up: Upstream, s: Settings, code: string, verifier: string, redirectTo: Option<string>)
    returns (r: Result<Json, Fault>)
    modifies up
    ensures var req := AuthPost(s, "token?grant_type=pkce", Some(PkcePayload(code, verifier, redirectTo)), None);
      && (req.Err? ==> r == Err(req.error) && up.sent == old(up.sent))
      && (req.Ok? ==> up.sent == old(up.sent) + [req.value]
                      && r == CheckedJson(up.reply(old(up.sent), req.value), req.value.url))
  {
    r := CallJson(up, AuthPost(s, "token?grant_type=pkce", Some(PkcePayload(code, verifier, redirectTo)), None));
  }

  /** `refresh_with_token`. */
  method RefreshWithToken(up: Upstream, s: Settings, refreshToken: string) returns (r: Result<Json, Fault>)
    modifies up
    ensures var req := AuthPost(s, "token?grant_type=refresh_token", Some(Obj(map["refresh_token" := Str(refreshToken)])), None);
      && (req.Err? ==> r == Err(req.error) && up.sent == old(up.sent))
      && (req.Ok? ==> up.sent == old(up.sent) + [req.value]
                      && r == CheckedJson(up.reply(old(up.sent), req.value), req.value.url))
  {
    r := CallJson(up, AuthPost(s, "token?grant_type=refresh_token", Some(Obj(map["refresh_token" := Str(refreshToken)])), None));
  }

  /** The GET of `/auth/v1/user` that `get_userinfo` sends. */
  function UserInfoRequest(s: Settings, token: string): (r: Result<Request, Fault>)
    ensures r.Ok? <==> BaseUrl(s).Ok? && AuthHeaders(s, token).Ok?
    ensures r.Ok? ==> r.value == Request(Get, BaseUrl(s).value + "/auth/v1/user", AuthHeaders(s, token).value, None)
  {
    var base :- BaseUrl(s);
    var headers :- AuthHeaders(s, token);
    Ok(Request(Get, base + "/auth/v1/user", headers, None))
  }

  /** `get_userinfo`. */
  method GetUserInfo(up: Upstream, s: Settings, token: string) returns (r: Result<Json, Fault>)
    modifies up
    ensures var req := UserInfoRequest(s, token);
      && (req.Err? ==> r == Err(req.error) && up.sent == old(up.sent))
      && (req.Ok? ==> up.sent == old(up.sent) + [req.value]
                      && r == CheckedJson(up.reply(old(up.sent), req.value), req.value.url))
  {
    r := CallJson(up, UserInfoRequest(s, token));
  }

  /** The logout request carries the anon key and the bearer token it revokes. */
  lemma LogoutSendsToken(s: Settings, token: string)
    requires AuthPost(s, "logout", None, Some(token)).Ok?
    ensures var h := AuthPost(s, "logout", None, Some(token)).value.headers;
      && h.Keys == {"apikey", "Content-Type", "Authorization"}
      && h["apikey"] == Strip(s.anonKey) && h["Authorization"] == "Bearer " + token
  {
  }

  /** `logout`: the reply body is not read, only its status. */
  method Logout(up: Upstream, s: Settings, token: string) returns (r: Result<(), Fault>)
    modifies up
    ensures var req := AuthPost(s, "logout", None, Some(token));
      && (req.Err? ==> r == Err(req.error) && up.sent == old(up.sent))
      && (req.Ok? ==> up.sent == old(up.sent) + [req.value]
                      && var rep := up.reply(old(up.sent), req.value);
                         r == (if 400 <= rep.status < 600 then Err(RaiseForStatus(rep, req.value.url).error) else Ok(())))
  {
    var req := AuthPost(s, "logout", None, Some(token));
    var rep := SendBuilt(up, req);
    if rep.Err? {
      return Err(rep.error);
    }
    var ok := RaiseForStatus(rep.value, req.value.url);
    if ok.Err? {
      return Err(ok.error);
    }
    return Ok(());
  }

  /** The key `get_user_from_access_token` presents: the service-role key when set, otherwise
      the anon key. */
  function VerifyKey(s: Settings): (r: Option<string>)
    ensures GetEnv(s.serviceRoleKey).Some? ==> r == GetEnv(s.serviceRoleKey)
    ensures GetEnv(s.serviceRoleKey).None? ==> r == GetEnv(Some(s.anonKey))
  {
    if GetEnv(s.serviceRoleKey).Some? then GetEnv(s.serviceRoleKey) else GetEnv(Some(s.anonKey))
  }

  /** The verification request, or the error raised before it: a ConfigError without a URL,
      a SupabaseAuthError without any key. */
  function VerifyRequest(s: Settings, token: string): (r: Result<Request, Fault>)
    ensures BaseUrl(s).Err? ==> r == Err(BaseUrl(s).error)
    ensures BaseUrl(s).Ok? && VerifyKey(s).None? ==> r.Err? && r.error.AuthError?
    ensures r.Ok? <==> BaseUrl(s).Ok? && VerifyKey(s).Some?
    ensures r.Ok? ==> r.value == Request(Get, BaseUrl(s).value + "/auth/v1/user",
                                         map["apikey" := VerifyKey(s).value, "Authorization" := "Bearer " + token], None)
  {
    var base :- BaseUrl(s);
    var key := VerifyKey(s);
    if key.None? then Err(AuthError("Supabase API 키가 설정되어 있지 않습니다."))
    else Ok(Request(Get, base + "/auth/v1/user", map["apikey" := key.value, "Authorization" := "Bearer " + token], None))
  }

  /** `get_user_from_access_token`: any status but 200 is a SupabaseAuthError. */
  method GetUserFromAccessToken(up: Upstream, s: Settings, token: string) returns (r: Result<Json, Fault>)
    modifies up
    ensures var req := VerifyRequest(s, token);
      && (req.Err? ==> r == Err(req.error) && up.sent == old(up.sent))
      && (req.Ok? ==> up.sent == old(up.sent) + [req.value]
                      && var rep := up.reply(old(up.sent), req.value);
                         && (rep.status != 200 ==> r.Err? && r.error.AuthError?)
                         && (rep.status == 200 ==> r == JsonBody(rep)))
  {
    var req := VerifyRequest(s, token);
    var rep := SendBuilt(up, req);
    if rep.Err? {
      return Err(rep.error);
    }
    if rep.value.status != 200 {
      return Err(AuthError("Supabase /auth/v1/user 호출 실패: " + IntToString(rep.value.status) + " " + rep.value.text));
    }
    r := JsonBody(rep.value);
  }
}
