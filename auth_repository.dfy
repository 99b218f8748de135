/** The auth repository of app/repository/auth.py: turning what the auth service answered into
    the response records of app/schemas/auth.py, with their defaults and with the errors the
    routes see. Each function takes the outcome of the upstream call as its input; the one
    operation that only sends, `revoke_if_possible`, is a method over the upstream. */
module AuthRepository {

  import opened Outcome
  import opened Text
  import opened JsonValue
  import Supabase
  import Config

  /** `AccessPayload`: what every token response carries. */
  datatype Access = Access(accessToken: string, tokenType: string, expiresIn: int)

  /** `UserLite`. */
  datatype UserLite = UserLite(id: string, email: Option<string>, provider: Option<string>, createdAt: Option<string>)

  /** `GoogleExchangeResp`. */
  datatype GoogleGrant = GoogleGrant(access: Access, user: UserLite, issuedAt: string)

  /** `MeResp`. */
  datatype Profile = Profile(id: string, email: Option<string>, meta: Option<map<string, Json>>)

  const ExchangeFailedCode := "SUPABASE_EXCHANGE_FAILED"
  const NoRefreshToken := HttpFault(502, Coded(ExchangeFailedCode, "No refresh_token from Supabase"))
  const InvalidRefreshToken := HttpFault(401, Coded("INVALID_REFRESH_TOKEN", "Refresh token is invalid or expired"))

  // What the response models accept

  /** A pydantic `str` field: only a string is accepted. */
  function StrField(v: Json): (r: Result<string, Fault>)
    ensures r.Ok? <==> v.Str?
    ensures r.Ok? ==> r.value == v.s
  {
    if v.Str? then Ok(v.s) else Err(TypeFault("Input should be a valid string"))
  }

  /** A pydantic `Optional[str]` field: None or a string. */
  function OptStrField(v: Json): (r: Result<Option<string>, Fault>)
    ensures r.Ok? <==> v.Null? || v.Str?
    ensures r == Ok(None) <==> v.Null?
    ensures v.Str? ==> r == Ok(Some(v.s))
  {
    match v
    case Null => Ok(None)
    case Str(s) => Ok(Some(s))
    case _ => Err(TypeFault("Input should be a valid string"))
  }

  /** The access part of both token responses: `token_type` defaults to "bearer" and
      `expires_in` to 3600 seconds, read through `int()`. */
  function AccessOf(data: Json, accessToken: Json): (r: Result<Access, Fault>)
    requires data.Obj?
    ensures r.Ok? <==> accessToken.Str? && FieldOr(data, "token_type", Str("bearer")).Str?
                       && PyInt(FieldOr(data, "expires_in", Num(3600))).Ok?
    ensures r.Ok? ==> r.value == Access(accessToken.s, FieldOr(data, "token_type", Str("bearer")).s,
                                       PyInt(FieldOr(data, "expires_in", Num(3600))).value)
  {
    var tokenType := FieldOr(data, "token_type", Str("bearer"));
    var expiresIn :- PyInt(FieldOr(data, "expires_in", Num(3600)));
    var access :- StrField(accessToken);
    var kind :- StrField(tokenType);
    Ok(Access(access, kind, expiresIn))
  }

  // exchange_google_id_token

  /** The user part of the Google grant: `user` defaults to `{}` (also when it is falsy), the
      provider to "google"; `app_metadata` defaults to `{}` only when it is absent. */
  function UserOf(data: Json): (r: Result<UserLite, Fault>)
    requires data.Obj?
    ensures var user := PyOr(FieldOr(data, "user", Obj(map[])), Obj(map[]));
      r.Ok? ==>
        && user.Obj?
        && Field(user, "id") == Str(r.value.id)
        && Field(user, "email") == OptStr(r.value.email)
        && Field(user, "created_at") == OptStr(r.value.createdAt)
        && FieldOr(user, "app_metadata", Obj(map[])).Obj?
        && FieldOr(FieldOr(user, "app_metadata", Obj(map[])), "provider", Str("google")) == OptStr(r.value.provider)
  {
    var user := PyOr(FieldOr(data, "user", Obj(map[])), Obj(map[]));
    if !user.Obj? then Err(TypeFault("object has no attribute 'get'"))
    else
      var provider :- DictGetOr(FieldOr(user, "app_metadata", Obj(map[])), "provider", Str("google"));
      var i :- StrField(Field(user, "id"));
      var e :- OptStrField(Field(user, "email"));
      var p :- OptStrField(provider);
      var c :- OptStrField(Field(user, "created_at"));
      Ok(UserLite(i, e, p, c))
  }

  /** The body of the `try`: the refresh token and the grant, or what it raises. */
  function ReadGrant(data: Json, now: string): Result<(GoogleGrant, Json), Fault> {
    var refresh :- DictGet(data, "refresh_token");
    if !PyTruthy(refresh) then Err(NoRefreshToken)
    else
      var access :- AccessOf(data, Field(data, "access_token"));
      var user :- UserOf(data);
      Ok((GoogleGrant(access, user, now), refresh))
  }

  /** `exchange_google_id_token`, given what `sb.exchange_google_id_token` returned or raised
      and the current time. An HTTPException raised inside passes through; anything else is
      wrapped as a 502 that names it. */
  function ExchangeGoogle(data: Result<Json, Fault>, now: string): (r: Result<(GoogleGrant, Json), Fault>)
    ensures data.Ok? && data.value.Obj? && !PyTruthy(Field(data.value, "refresh_token")) ==> r == Err(NoRefreshToken)
    ensures data.Err? && !data.error.HttpFault? ==>
      r == Err(HttpFault(502, Coded(ExchangeFailedCode, "Failed to exchange token with Supabase: " + FaultText(data.error))))
    ensures r.Err? && !(data.Err? && data.error.HttpFault?) ==>
      r.error.HttpFault? && r.error.status == 502 && r.error.detail.Coded? && r.error.detail.code == ExchangeFailedCode
    ensures r.Ok? ==> data.Ok? && data.value.Obj?
    ensures r.Ok? ==>
      var d := data.value;
      && r.value.1 == Field(d, "refresh_token") && PyTruthy(r.value.1)
      && Field(d, "access_token") == Str(r.value.0.access.accessToken)
      && r.value.0.issuedAt == now
      && AccessOf(d, Field(d, "access_token")) == Ok(r.value.0.access)
      && UserOf(d) == Ok(r.value.0.user)
  {
    var inner := if data.Err? then Err(data.error) else ReadGrant(data.value, now);
    match inner
    case Ok(grant) => Ok(grant)
    case Err(e) =>
      if e.HttpFault? then Err(e)
      else Err(HttpFault(502, Coded(ExchangeFailedCode, "Failed to exchange token with Supabase: " + FaultText(e))))
  }

  /** The defaults of the grant: a response with a refresh token, an access token and a user
      id but no token type, lifetime or provider reads as a bearer token valid for an hour from
      a Google sign-in. */
  lemma ExchangeDefaults(refresh: string, access: string, id: string, now: string)
    requires refresh != ""
    ensures var d := Obj(map["refresh_token" := Str(refresh), "access_token" := Str(access),
                              "user" := Obj(map["id" := Str(id)])]);
      ExchangeGoogle(Ok(d), now) ==
        Ok((GoogleGrant(Access(access, "bearer", 3600), UserLite(id, None, Some("google"), None), now), Str(refresh)))
  {
    var d := Obj(map["refresh_token" := Str(refresh), "access_token" := Str(access),
                     "user" := Obj(map["id" := Str(id)])]);
    assert AccessOf(d, Field(d, "access_token")) == Ok(Access(access, "bearer", 3600));
    assert UserOf(d) == Ok(UserLite(id, None, Some("google"), None));
  }

  // refresh_with_cookie

  /** `refresh_with_cookie`, given what `sb.refresh_with_token` returned or raised: the access
      part and the new refresh token (`None` when the service sends none); every failure,
      upstream or in reading the answer, is the same 401. */
  function RefreshWithCookie(data: Result<Json, Fault>): (r: Result<(Access, Json), Fault>)
    ensures r.Err? ==> r.error == InvalidRefreshToken
    ensures r.Ok? <==> data.Ok? && data.value.Obj? && "access_token" in data.value.fields
                       && AccessOf(data.value, data.value.fields["access_token"]).Ok?
    ensures r.Ok? ==> r.value.1 == Field(data.value, "refresh_token")
                      && r.value.0 == AccessOf(data.value, data.value.fields["access_token"]).value
  {
    var read := if data.Err? then Err(data.error)
                else
                  match Subscript(data.value, "access_token")
                  case Err(e) => Err(e)
                  case Ok(token) => AccessOf(data.value, token);
    match read
    case Err(_) => Err(InvalidRefreshToken)
    case Ok(access) => Ok((access, Field(data.value, "refresh_token")))
  }

  // current_user_profile

  /** The `meta` of a profile: name and avatar of the first identity, when there is one. */
  function MetaOf(userJson: Json): (r: Result<Option<map<string, Json>>, Fault>)
    requires userJson.Obj?
    ensures !PyTruthy(Field(userJson, "identities")) ==> r == Ok(None)
    ensures r.Ok? && r.value.Some? ==> r.value.value.Keys == {"name", "avatar_url"}
  {
    var identities := PyOr(Field(userJson, "identities"), Arr([]));
    if !PyTruthy(identities) then Ok(None)
    else
      var prv :- FirstItem(identities);
      var data :- DictGetOr(prv, "identity_data", Obj(map[]));
      if !data.Obj? then Err(TypeFault("object has no attribute 'get'"))
      else Ok(Some(map["name" := Field(data, "name"), "avatar_url" := Field(data, "avatar_url")]))
  }

  /** `current_user_profile`: the id (which must be a string), the e-mail and the meta of
      the given user record. */
  function CurrentUserProfile(userJson: Json): (r: Result<Profile, Fault>)
    requires userJson.Obj?
    ensures r.Ok? ==> Field(userJson, "id") == Str(r.value.id)
                      && Field(userJson, "email") == OptStr(r.value.email)
                      && MetaOf(userJson) == Ok(r.value.meta)
    ensures r.Ok? <==> Field(userJson, "id").Str? && OptStrField(Field(userJson, "email")).Ok? && MetaOf(userJson).Ok?
  {
    var meta :- MetaOf(userJson);
    var id :- StrField(Field(userJson, "id"));
    var email :- OptStrField(Field(userJson, "email"));
    Ok(Profile(id, email, meta))
  }

  /** The first identity's name and avatar are what the profile shows. */
  lemma ProfileShowsIdentity(userJson: Json, first: Json, rest: seq<Json>)
    requires userJson.Obj? && Field(userJson, "identities") == Arr([first] + rest) && first.Obj?
    requires FieldOr(first, "identity_data", Obj(map[])).Obj?
    ensures var data := FieldOr(first, "identity_data", Obj(map[]));
      MetaOf(userJson) == Ok(Some(map["name" := Field(data, "name"), "avatar_url" := Field(data, "avatar_url")]))
  {
  }

  // revoke_if_possible

  /** `revoke_if_possible`: nothing is sent without a token; with one, the logout is sent and
      whatever it raises is dropped. */
  method RevokeIfPossible(up: Supabase.Upstream, s: Config.Settings, token: Option<string>)
    modifies up
    ensures token.None? || token.value == "" ==> up.sent == old(up.sent)
    ensures token.Some? && token.value != "" ==>
      var req := Supabase.AuthPost(s, "logout", None, Some(token.value));
      up.sent == old(up.sent) + (if req.Ok? then [req.value] else [])
  {
    if token.None? || token.value == "" {
      return;
    }
    var _ := Supabase.Logout(up, s, token.value);
  }

  // signup_with_password

  /** What the client's `sign_up` hands back: the new user's id, if any, and the session, if
      e-mail confirmation is off. */
  datatype Session = Session(accessToken: string, tokenType: string)
  datatype SignUp = SignUp(userId: Option<string>, session: Option<Session>)

  /** `signup_with_password`, given what `sign_up` returned or raised and what the `profiles`
      insert raised, if anything. */
  function SignupWithPassword(auth: Result<SignUp, Fault>, insert: Result<(), Fault>,
                              email: string, nickname: string): (r: Result<Json, Fault>)
    ensures auth.Err? ==> r == Err(auth.error)
    ensures auth.Ok? && auth.value.userId.None? ==> r == Err(ValueError("Supabase sign_up failed"))
    ensures auth.Ok? && auth.value.userId.Some? && insert.Err? ==> r == Err(insert.error)
    ensures r.Ok? ==>
      var session := auth.value.session;
      && auth.Ok? && auth.value.userId.Some? && insert.Ok?
      && r.value.Obj? && r.value.fields.Keys == {"access_token", "token_type", "user_id", "email", "nickname"}
      && r.value.fields["user_id"] == Str(auth.value.userId.value)
      && r.value.fields["email"] == Str(email) && r.value.fields["nickname"] == Str(nickname)
      && (session.None? <==> r.value.fields["access_token"] == Null)
      && (session.None? <==> r.value.fields["token_type"] == Null)
      && (session.Some? ==> r.value.fields["access_token"] == Str(session.value.accessToken)
                            && r.value.fields["token_type"] == Str(session.value.tokenType))
  {
    var res :- auth;
    if res.userId.None? then Err(ValueError("Supabase sign_up failed"))
    else
      var _ :- insert;
      var session := res.session;
      Ok(Obj(map[
        "access_token" := if session.Some? then Str(session.value.accessToken) else Null,
        "token_type" := if session.Some? then Str(session.value.tokenType) else Null,
        "user_id" := Str(res.userId.value),
        "email" := Str(email),
        "nickname" := Str(nickname)]))
  }
}
