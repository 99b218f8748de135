/** app/db/supabase_users.py: looking up an auth user's id by e-mail through the admin
    endpoint with the service-role key, matching addresses without regard to ASCII case. */
module UserLookup {

  import opened Outcome
  import opened Text
  import opened JsonValue
  import opened Supabase
  import Config

  /** `_service_headers`: the service-role key as both the API key and the bearer token. */
  function ServiceHeaders(s: Config.Settings): (r: Result<Headers, Fault>)
    ensures r.Ok? <==> s.serviceRoleKey.Some? && s.serviceRoleKey.value != ""
    ensures r.Err? ==> r.error.RuntimeError?
    ensures r.Ok? ==>
      var key := s.serviceRoleKey.value;
      && r.value.Keys == {"apikey", "Authorization", "Content-Type"}
      && r.value["apikey"] == key
      && r.value["Authorization"] == "Bearer " + key
      && r.value["Content-Type"] == "application/json"
  {
    if s.serviceRoleKey.None? || s.serviceRoleKey.value == "" then
      Err(RuntimeError("SUPABASE_SERVICE_ROLE_KEY is required to look up users by email"))
    else
      var key := s.serviceRoleKey.value;
      Ok(map["apikey" := key, "Authorization" := "Bearer " + key, "Content-Type" := "application/json"])
  }

  /** The admin request; the address goes into the query string as it is, unquoted. */
  function LookupRequest(s: Config.Settings, email: string): (r: Result<Request, Fault>)
    ensures r.Ok? <==> ServiceHeaders(s).Ok?
    ensures r.Ok? ==> r.value == Request(Get, RStripChar(s.supabaseUrl, '/') + "/auth/v1/admin/users?email=" + email,
                                         ServiceHeaders(s).value, None)
  {
    var headers :- ServiceHeaders(s);
    Ok(Request(Get, RStripChar(s.supabaseUrl, '/') + "/auth/v1/admin/users?email=" + email, headers, None))
  }

  /** `(user.get("email") or "")`, which must be a string for `.lower()`. */
  function EmailOf(user: Json): Result<string, Fault> {
    var e :- DictGet(user, "email");
    match PyOr(e, Str(""))
    case Str(v) => Ok(v)
    case _ => Err(TypeFault("object has no attribute 'lower'"))
  }

  /** The users the reply lists: `resp.json().get("users")` when there is a body, else none. */
  function ListedUsers(rep: Reply): Result<seq<Json>, Fault> {
    var users :- if rep.text == "" then Ok(Arr([])) else
                   var body :- JsonBody(rep);
                   DictGet(body, "users");
    PyIter(PyOr(users, Arr([])))
  }

  /** The id of the first listed user whose address is `email` up to ASCII case, or null. */
  function FirstMatch(users: seq<Json>, email: string): Result<Json, Fault>
    decreases |users|
  {
    if users == [] then Ok(Null)
    else
      var e :- EmailOf(users[0]);
      if Lower(e) == Lower(email) then Ok(Field(users[0], "id"))
      else FirstMatch(users[1..], email)
  }

  predicate Matches(user: Json, email: string) {
    EmailOf(user).Ok? && Lower(EmailOf(user).value) == Lower(email)
  }

  /** The search stops at the first match: when the users before `k` all carry addresses that
      differ from `email` and user `k` matches, the answer is user `k`'s id; when no user
      matches and every address can be read, the answer is null. */
  lemma {:induction false} FirstMatchFinds(users: seq<Json>, email: string, k: nat)
    requires k <= |users|
    requires forall j :: 0 <= j < k ==> EmailOf(users[j]).Ok? && !Matches(users[j], email)
    ensures k < |users| && Matches(users[k], email) ==> FirstMatch(users, email) == Ok(Field(users[k], "id"))
    ensures k == |users| ==> FirstMatch(users, email) == Ok(Null)
    decreases k
  {
    if k > 0 {
      assert !Matches(users[0], email);
      FirstMatchFinds(users[1..], email, k - 1);
    }
  }

  /** Conversely, a non-null answer is the id of some matching user. */
  lemma {:induction false} FirstMatchSound(users: seq<Json>, email: string)
    requires FirstMatch(users, email).Ok? && FirstMatch(users, email).value != Null
    ensures exists k :: 0 <= k < |users| && Matches(users[k], email) && FirstMatch(users, email).value == Field(users[k], "id")
    decreases |users|
  {
    if !Matches(users[0], email) {
      FirstMatchSound(users[1..], email);
      var k :| 0 <= k < |users| - 1 && Matches(users[1..][k], email) && FirstMatch(users[1..], email).value == Field(users[1..][k], "id");
      assert users[k + 1] == users[1..][k];
    }
  }

  /** Addresses that differ only in ASCII case find the same user. */
  lemma {:induction false} FirstMatchIgnoresCase(users: seq<Json>, a: string, b: string)
    requires Lower(a) == Lower(b)
    ensures FirstMatch(users, a) == FirstMatch(users, b)
    decreases |users|
  {
    if users != [] {
      FirstMatchIgnoresCase(users[1..], a, b);
    }
  }

  /** `get_user_id_by_email`: an empty address answers null without a request. */
  method GetUserIdByEmail(up: Upstream, s: Config.Settings, email: string) returns (r: Result<Json, Fault>)
    modifies up
    ensures email == "" ==> r == Ok(Null) && up.sent == old(up.sent)
    ensures email != "" ==>
      var req := LookupRequest(s, email);
      && (req.Err? ==> r == Err(req.error) && up.sent == old(up.sent))
      && (req.Ok? ==>
            && up.sent == old(up.sent) + [req.value]
            && var rep := up.reply(old(up.sent), req.value);
               var users := ListedUsers(rep);
               r == (if 400 <= rep.status < 600 then Err(RaiseForStatus(rep, req.value.url).error)
                     else if users.Err? then Err(users.error)
                     else FirstMatch(users.value, email)))
  {
    if email == "" {
      return Ok(Null);
    }
    var req := LookupRequest(s, email);
    var rep := SendBuilt(up, req);
    if rep.Err? {
      return Err(rep.error);
    }
    var checked := RaiseForStatus(rep.value, req.value.url);
    if checked.Err? {
      return Err(checked.error);
    }
    var users := ListedUsers(rep.value);
    if users.Err? {
      return Err(users.error);
    }
    var us := users.value;
    var i := 0;
    while i < |us|
      invariant 0 <= i <= |us|
      invariant FirstMatch(us[i..], email) == FirstMatch(us, email)
    {
      assert us[i..][1..] == us[i + 1..];
      var e := EmailOf(us[i]);
      if e.Err? {
        return Err(e.error);
      }
      if Lower(e.value) == Lower(email) {
        return Ok(Field(us[i], "id"));
      }
      i := i + 1;
    }
    return Ok(Null);
  }
}
