/** The request dependencies of app/db/deps.py: the bearer token taken from the credentials
    FastAPI's `HTTPBearer` parsed out of the `Authorization` header, and the current user
    that the auth service reports for that token. */
module Deps {

  import opened Outcome
  import opened Text
  import opened JsonValue
  import opened Supabase
  import Config

  /** What `HTTPBearer(auto_error=False)` hands over: the scheme and the credentials text. */
  datatype Credentials = Credentials(scheme: string, credentials: Option<string>)

  const MissingAccessToken := HttpFault(401, Coded("MISSING_ACCESS_TOKEN", "Authorization 헤더가 없습니다."))
  const EmptyAccessToken := HttpFault(401, Coded("EMPTY_ACCESS_TOKEN", "엑세스 토큰이 비어 있습니다."))
  const InvalidAccessToken := HttpFault(401, Coded("INVALID_ACCESS_TOKEN", "유효하지 않거나 만료된 엑세스 토큰입니다."))
  const InvalidTokenPayload := HttpFault(401, Coded("INVALID_TOKEN_PAYLOAD", "토큰에서 사용자 정보를 확인할 수 없습니다."))

  function OrEmpty(v: Option<string>): string {
    if v.Some? then v.value else ""
  }

  /** `get_access_token`: no credentials or another scheme than bearer, in any case, is a
      missing token; a token that is blank after stripping is an empty one; otherwise the
      stripped token, which is never empty and has nothing left to strip. */
  function GetAccessToken(c: Option<Credentials>): (r: Result<string, Fault>)
    ensures c.None? || Lower(c.value.scheme) != "bearer" ==> r == Err(MissingAccessToken)
    ensures c.Some? && Lower(c.value.scheme) == "bearer" && Strip(OrEmpty(c.value.credentials)) == "" ==>
      r == Err(EmptyAccessToken)
    ensures r.Ok? <==> c.Some? && Lower(c.value.scheme) == "bearer" && Strip(OrEmpty(c.value.credentials)) != ""
    ensures r.Ok? ==> r.value == Strip(c.value.credentials.value) && r.value != [] && Strip(r.value) == r.value
  {
    if c.None? || Lower(c.value.scheme) != "bearer" then Err(MissingAccessToken)
    else
      var token := Strip(OrEmpty(c.value.credentials));
      TrimmedIdempotent(OrEmpty(c.value.credentials), Python);
      if token == "" then Err(EmptyAccessToken) else Ok(token)
  }

  /** The normalised user: exactly the id, the e-mail and the unmodified payload; a payload
      without a truthy id is refused. */
  function UserPayload(v: Json): (r: Result<Json, Fault>)
    ensures r.Ok? <==> v.Obj? && PyTruthy(Field(v, "id"))
    ensures !v.Obj? ==> r.Err? && r.error.TypeFault?
    ensures v.Obj? && !PyTruthy(Field(v, "id")) ==> r == Err(InvalidTokenPayload)
    ensures r.Ok? ==>
      && r.value.Obj? && r.value.fields.Keys == {"id", "email", "raw"}
      && r.value.fields["id"] == Field(v, "id")
      && r.value.fields["email"] == Field(v, "email")
      && r.value.fields["raw"] == v
  {
    var id :- DictGet(v, "id");
    if !PyTruthy(id) then Err(InvalidTokenPayload)
    else Ok(Obj(map["id" := id, "email" := Field(v, "email"), "raw" := v]))
  }

  /** `get_current_user`: a SupabaseAuthError (no key, or any status but 200) becomes 401
      INVALID_ACCESS_TOKEN; other failures pass through. */
  method GetCurrentUser(up: Upstream, s: Config.Settings, token: string) returns (r: Result<Json, Fault>)
    modifies up
    ensures var req := VerifyRequest(s, token);
      && (req.Err? ==>
            up.sent == old(up.sent) && r == Err(if req.error.AuthError? then InvalidAccessToken else req.error))
      && (req.Ok? ==>
            && up.sent == old(up.sent) + [req.value]
            && var rep := up.reply(old(up.sent), req.value);
               && (rep.status != 200 ==> r == Err(InvalidAccessToken))
               && (rep.status == 200 ==>
                     r == (if rep.json.None? then Err(JsonBody(rep).error) else UserPayload(rep.json.value))))
  {
    var verified := GetUserFromAccessToken(up, s, token);
    if verified.Err? {
      if verified.error.AuthError? {
        return Err(InvalidAccessToken);
      }
      return Err(verified.error);
    }
    r := UserPayload(verified.value);
  }
}
