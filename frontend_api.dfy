/** The request helper of frontend/src/lib/api.ts: `apiFetch` builds the URL, adds the JSON
    content type and the bearer token the token store holds, sends the request, parses the
    body and turns an error status into a thrown `Error` whose message is read from the body.
    The network (`fetch`) and `JSON.parse` are parameters. */
module ApiClient {

  import opened Outcome
  import opened Text
  import opened JsonValue
  import BrowserAuth

  /** The base URL when `NEXT_PUBLIC_API_BASE_URL` is unset or empty. */
  const DefaultBase := "http://127.0.0.1:8000"

  /** The messages thrown when the network fails without a message, and when an error
      response has neither a readable body nor a status text. */
  const NetworkFailed := "네트워크 요청에 실패했습니다. 백엔드 서버를 확인해주세요."
  const RequestFailed := "요청에 실패했습니다."

  /** `process.env.NEXT_PUBLIC_API_BASE_URL || DEFAULT`. */
  function ApiBase(env: Option<string>): (base: string)
    ensures env.Some? && env.value != "" ==> base == env.value
    ensures env.None? || env.value == "" ==> base == DefaultBase
  {
    if env.Some? && env.value != "" then env.value else DefaultBase
  }

  predicate Absolute(path: string) {
    StartsWith(path, "http://") || StartsWith(path, "https://")
  }

  /** `buildUrl(path)`. */
  function BuildUrl(base: string, path: string): (url: string)
    ensures Absolute(path) ==> url == path
    ensures !Absolute(path) ==> |url| == |base| + |path| + (if StartsWith(path, "/") then 0 else 1)
  {
    if Absolute(path) then path
    else if !StartsWith(path, "/") then base + "/" + path
    else base + path
  }

  /** An absolute URL is sent as given; any other path goes under the base, separated from
      it by exactly the one `/` the path starts with or the one put in front of it. */
  lemma BuildUrlShape(base: string, path: string)
    ensures Absolute(path) ==> BuildUrl(base, path) == path
    ensures !Absolute(path) ==>
      var url := BuildUrl(base, path);
      && StartsWith(url, base)
      && url[|base|..] == (if StartsWith(path, "/") then path else "/" + path)
      && |url| == |base| + |path| + (if StartsWith(path, "/") then 0 else 1)
  {
    var url := BuildUrl(base, path);
    if !Absolute(path) {
      assert url[..|base|] == base;
    }
  }

  lemma PrefixKept(s: string, p: string, t: string)
    requires StartsWith(s, p)
    ensures StartsWith(s + t, p)
  {
    assert (s + t)[..|p|] == s[..|p|];
  }

  /** With an absolute base, building the URL of a built URL changes nothing. */
  lemma BuildUrlIdempotent(base: string, path: string)
    requires Absolute(base)
    ensures BuildUrl(base, BuildUrl(base, path)) == BuildUrl(base, path)
  {
    if !Absolute(path) {
      var rest := if StartsWith(path, "/") then path else "/" + path;
      assert BuildUrl(base, path) == base + rest;
      if StartsWith(base, "http://") {
        PrefixKept(base, "http://", rest);
      } else {
        PrefixKept(base, "https://", rest);
      }
    }
  }

  // Error messages

  /** `payload.detail || payload.message || payload.error || payload.msg || fallback` for the
      fields of an object; an absent field is `undefined`, which is falsy. */
  function FirstTruthy(payload: Json, keys: seq<string>, fallback: string): (m: Json)
    ensures JsTruthy(m) || m == Str(fallback)
    ensures m == Str(fallback) || exists k :: 0 <= k < |keys| && m == Field(payload, keys[k])
    decreases |keys|
  {
    if keys == [] then Str(fallback)
    else if JsTruthy(Field(payload, keys[0])) then Field(payload, keys[0])
    else
      var m := FirstTruthy(payload, keys[1..], fallback);
      assert forall k :: 1 <= k < |keys| ==> keys[k] == keys[1..][k - 1];
      m
  }

  const MessageKeys := ["detail", "message", "error", "msg"]

  /** `extractErrorMessage(payload, fallback)`: the result may be any value, not only a string. */
  function ErrorMessage(payload: Json, fallback: string): (m: Json)
    ensures JsTruthy(m) || m == Str(fallback)
    ensures !JsTruthy(payload) ==> m == Str(fallback)
    ensures payload.Str? && payload.s != "" ==> m == payload
    ensures payload.Obj? && JsTruthy(Field(payload, "detail")) ==> m == Field(payload, "detail")
    ensures (payload.Bool? || payload.Num?) ==> m == Str(fallback)
  {
    if !JsTruthy(payload) then Str(fallback)
    else if payload.Str? then payload
    else if payload.Obj? || payload.Arr? then FirstTruthy(payload, MessageKeys, fallback)
    else Str(fallback)
  }

  /** Only an object's fields are read, in the order detail, message, error, msg. */
  lemma ErrorMessageOfObject(fields: map<string, Json>, fallback: string)
    ensures var p, m := Obj(fields), ErrorMessage(Obj(fields), fallback);
      && (JsTruthy(Field(p, "detail")) ==> m == Field(p, "detail"))
      && (!JsTruthy(Field(p, "detail")) && JsTruthy(Field(p, "message")) ==> m == Field(p, "message"))
      && (!JsTruthy(Field(p, "detail")) && !JsTruthy(Field(p, "message")) && JsTruthy(Field(p, "error"))
          ==> m == Field(p, "error"))
      && (!JsTruthy(Field(p, "detail")) && !JsTruthy(Field(p, "message")) && !JsTruthy(Field(p, "error"))
          ==> m == (if JsTruthy(Field(p, "msg")) then Field(p, "msg") else Str(fallback)))
  {
    var p := Obj(fields);
    var ks := MessageKeys;
    assert ks[1..] == ["message", "error", "msg"];
    assert ks[1..][1..] == ["error", "msg"];
    assert ks[1..][1..][1..] == ["msg"];
    assert ks[1..][1..][1..][1..] == [];
  }

  /** An array has none of those fields. */
  lemma ErrorMessageOfArray(items: seq<Json>, fallback: string)
    ensures ErrorMessage(Arr(items), fallback) == Str(fallback)
  {
    var ks := MessageKeys;
    assert ks[1..] == ["message", "error", "msg"];
    assert ks[1..][1..] == ["error", "msg"];
    assert ks[1..][1..][1..] == ["msg"];
    assert ks[1..][1..][1..][1..] == [];
  }

  /** JavaScript's `String(v)`: arrays print their elements separated by `,`, with `null`
      elements printing as nothing, and every other object prints as `[object Object]`. */
  function JsString(v: Json): (r: string)
    ensures v.Str? ==> r == v.s
    ensures v.Obj? ==> r == "[object Object]"
    decreases v
  {
    match v
    case Null => "null"
    case Bool(b) => if b then "true" else "false"
    case Num(n) => IntToString(n)
    case Str(s) => s
    case Arr(items) => JsItems(items)
    case Obj(_) => "[object Object]"
  }

  function JsItems(items: seq<Json>): (r: string)
    ensures |items| == 1 && items[0].Obj? ==> r == "[object Object]"
    decreases items
  {
    if items == [] then ""
    else
      var first := if items[0].Null? then "" else JsString(items[0]);
      if |items| == 1 then first else first + "," + JsItems(items[1..])
  }

  /** The message of the `Error` thrown for an error response, as written: the extracted value
      if it is a string, `String(value)` otherwise. */
  function ThrownAsWritten(payload: Json, fallback: string): (text: string)
    ensures ErrorMessage(payload, fallback).Str? ==> text == ErrorMessage(payload, fallback).s
  {
    var m := ErrorMessage(payload, fallback);
    if m.Str? then m.s else JsString(m)
  }

  /** The body FastAPI sends for an HTTPException: `{"detail": detail}`, where the service's
      coded details are objects `{code, message}`. */
  function ErrorBody(d: Detail): (body: Json)
    ensures body.Obj? && "detail" in body.fields
  {
    match d
    case Coded(code, message) => Obj(map["detail" := Obj(map["code" := Str(code), "message" := Str(message)])])
    case Text(t) => Obj(map["detail" := Str(t)])
  }

  /** As written, every coded error of the service reaches the user as `[object Object]`,
      and so does FastAPI's list of validation errors. */
  lemma CodedDetailUnreadable(code: string, message: string, fallback: string, errors: Json)
    requires errors.Obj?
    ensures ThrownAsWritten(ErrorBody(Coded(code, message)), fallback) == "[object Object]"
    ensures ThrownAsWritten(Obj(map["detail" := Arr([errors])]), fallback) == "[object Object]"
  {
    var d := Obj(map["code" := Str(code), "message" := Str(message)]);
    assert Field(ErrorBody(Coded(code, message)), "detail") == d;
    assert Field(Obj(map["detail" := Arr([errors])]), "detail") == Arr([errors]);
  }

  /** The error text the model uses: as written, except that an object found where the
      message was expected is read for its own `message`. */
  function ErrorText(payload: Json, fallback: string): (text: string)
    ensures ErrorMessage(payload, fallback).Str? ==> text == ThrownAsWritten(payload, fallback)
  {
    var m := ErrorMessage(payload, fallback);
    if m.Str? then m.s
    else if m.Obj? && Field(m, "message").Str? && Field(m, "message").s != "" then Field(m, "message").s
    else JsString(m)
  }

  /** Every error the service raises reaches the user as its message, a plain detail as
      itself; a message left empty gives way to the placeholder text. */
  lemma ServiceErrorsReadable(d: Detail, fallback: string)
    ensures d.Coded? && d.message != "" ==> ErrorText(ErrorBody(d), fallback) == d.message
    ensures d.Text? && d.text != "" ==> ErrorText(ErrorBody(d), fallback) == d.text
    ensures d.Text? && d.text != "" ==> ThrownAsWritten(ErrorBody(d), fallback) == d.text
  {
    var b := ErrorBody(d);
    if d.Coded? {
      var inner := Obj(map["code" := Str(d.code), "message" := Str(d.message)]);
      assert Field(b, "detail") == inner;
      assert Field(inner, "message") == Str(d.message);
    } else {
      assert Field(b, "detail") == Str(d.text);
    }
  }

  // Headers

  /** Appending to a header list: names are case-insensitive, and a second value for a name
      joins the first after `", "`. */
  function Appended(fields: map<string, string>, name: string, value: string): (r: map<string, string>)
    ensures r.Keys == fields.Keys + {Lower(name)}
    ensures r[Lower(name)] == if Lower(name) in fields then fields[Lower(name)] + ", " + value else value
    ensures forall k :: k in fields && k != Lower(name) ==> r[k] == fields[k]
  {
    var key := Lower(name);
    fields[key := if key in fields then fields[key] + ", " + value else value]
  }

  /** The headers `new Headers(init)` holds. */
  function Combined(init: seq<(string, string)>): map<string, string>
    decreases |init|
  {
    if init == [] then map[]
    else
      var last := init[|init| - 1];
      Appended(Combined(init[..|init| - 1]), last.0, last.1)
  }

  /** A name is held exactly when the caller gave it, in any case. */
  lemma {:induction false} CombinedNames(init: seq<(string, string)>, name: string)
    ensures Lower(name) in Combined(init) <==> exists i :: 0 <= i < |init| && Lower(init[i].0) == Lower(name)
    decreases |init|
  {
    if init != [] {
      var front := init[..|init| - 1];
      CombinedNames(front, name);
      if Lower(name) in Combined(front) {
        var i :| 0 <= i < |front| && Lower(front[i].0) == Lower(name);
        assert init[i] == front[i];
      }
      if exists i :: 0 <= i < |init| && Lower(init[i].0) == Lower(name) {
        var i :| 0 <= i < |init| && Lower(init[i].0) == Lower(name);
        if i < |front| {
          assert front[i] == init[i];
        }
      }
    }
  }

  /** The request's `Headers` object. */
  class Headers {
    var fields: map<string, string>

    /** `new Headers(init)`, with `init` as name-value pairs in order. */
    constructor(init: seq<(string, string)>)
      ensures fields == Combined(init)
    {
      var held := map[];
      var i := 0;
      while i < |init|
        invariant 0 <= i <= |init|
        invariant held == Combined(init[..i])
      {
        assert init[..i + 1][..i] == init[..i];
        held := Appended(held, init[i].0, init[i].1);
        i := i + 1;
      }
      assert init[..|init|] == init;
      fields := held;
    }

    /** `headers.has(name)`. */
    function Has(name: string): (r: bool)
      reads this
      ensures r <==> Lower(name) in fields
    {
      Lower(name) in fields
    }

    /** `headers.set(name, value)`: the one value of that name from now on. */
    method Set(name: string, value: string)
      modifies this
      ensures fields == old(fields)[Lower(name) := value]
    {
      fields := fields[Lower(name) := value];
    }
  }

  const ContentType := "content-type"
  const Authorization := "authorization"
  const JsonType := "application/json"

  /** The names `apiFetch` asks for, as `Headers` keeps them. */
  lemma HeaderNames()
    ensures Lower("Content-Type") == ContentType && Lower("Authorization") == Authorization
  {
  }

  /** The headers `apiFetch` sends: the caller's, then the JSON content type when the caller
      gave none and there is a truthy body, then the bearer token when there is a truthy one
      and the caller gave no `Authorization`. */
  function Prepared(init: seq<(string, string)>, body: Option<string>, token: Option<string>): (sent: map<string, string>)
    ensures forall k :: k in Combined(init) ==> k in sent && sent[k] == Combined(init)[k]
  {
    var given := Combined(init);
    var typed := if ContentType !in given && body.Some? && body.value != "" then given[ContentType := JsonType] else given;
    if token.Some? && token.value != "" && Authorization !in typed then typed[Authorization := "Bearer " + token.value]
    else typed
  }

  /** The caller's headers are sent as given; the content type is added exactly when the
      caller gave none and there is a body, the token exactly when there is one and the caller
      gave no `Authorization`; nothing else is added. */
  lemma PreparedHeaders(init: seq<(string, string)>, body: Option<string>, token: Option<string>)
    ensures var given, sent := Combined(init), Prepared(init, body, token);
      && (forall k :: k in given ==> k in sent && sent[k] == given[k])
      && (forall k :: k in sent && k !in given ==> k == ContentType || k == Authorization)
      && (ContentType in sent && ContentType !in given <==> body.Some? && body.value != "" && ContentType !in given)
      && (ContentType in sent && ContentType !in given ==> sent[ContentType] == JsonType)
      && (Authorization in sent && Authorization !in given
          <==> token.Some? && token.value != "" && Authorization !in given)
      && (Authorization in sent && Authorization !in given ==> sent[Authorization] == "Bearer " + token.value)
  {
    assert ContentType != Authorization;
  }

  // Sending

  datatype Request = Request(url: string, headers: map<string, string>, body: Option<string>)

  /** What `fetch` does: it rejects, with or without a message, or gives a response. */
  datatype Response =
    | NetworkFailure(message: Option<string>)
    | Answered(status: int, statusText: string, text: string)

  /** The parsed body: `null` when empty, the text itself when it is not JSON. */
  function Body(text: string, parse: string -> Option<Json>): (data: Json)
    ensures text == "" ==> data == Null
    ensures text != "" && parse(text).Some? ==> data == parse(text).value
    ensures text != "" && parse(text).None? ==> data == Str(text)
  {
    if text == "" then Null
    else
      match parse(text)
      case Some(j) => j
      case None => Str(text)
  }

  /** The fallback message of an error response: its status text, or the placeholder. */
  function Fallback(statusText: string): (text: string)
    ensures text != ""
    ensures statusText != "" ==> text == statusText
  {
    if statusText != "" then statusText else RequestFailed
  }

  /** What the promise `apiFetch` returns settles to, as written: the data for a status from
      200 to 299, otherwise an error whose message is the extracted value if it is a string
      and `String(value)` otherwise. */
  function Settle(response: Response, parse: string -> Option<Json>): (r: Result<Json, string>)
    ensures response.NetworkFailure? ==>
      r == Err(if response.message.Some? && response.message.value != "" then response.message.value else NetworkFailed)
    ensures response.Answered? ==>
      (r.Ok? <==> 200 <= response.status <= 299)
      && (r.Ok? ==> r.value == Body(response.text, parse))
      && (r.Err? ==> r.error == ThrownAsWritten(Body(response.text, parse), Fallback(response.statusText)))
  {
    match response
    case NetworkFailure(m) => Err(if m.Some? && m.value != "" then m.value else NetworkFailed)
    case Answered(status, statusText, text) =>
      var data := Body(text, parse);
      if 200 <= status <= 299 then Ok(data)
      else Err(ThrownAsWritten(data, Fallback(statusText)))
  }

  /** The corrected settlement: an error message found as an object is read for its own
      `message`; everything else as written. */
  function SettleCorrected(response: Response, parse: string -> Option<Json>): (r: Result<Json, string>)
    ensures response.Answered? && r.Err? ==>
      r.error == ErrorText(Body(response.text, parse), Fallback(response.statusText))
    ensures response.Answered? && 200 <= response.status <= 299 ==> r == Settle(response, parse)
    ensures response.NetworkFailure? ==> r == Settle(response, parse)
  {
    match response
    case NetworkFailure(m) => Err(if m.Some? && m.value != "" then m.value else NetworkFailed)
    case Answered(status, statusText, text) =>
      var data := Body(text, parse);
      if 200 <= status <= 299 then Ok(data)
      else Err(ErrorText(data, Fallback(statusText)))
  }

  /** The two settlements differ only where the extracted message is not a string. */
  lemma SettleAgrees(response: Response, parse: string -> Option<Json>)
    requires response.Answered? ==>
      ErrorMessage(Body(response.text, parse), Fallback(response.statusText)).Str?
    ensures SettleCorrected(response, parse) == Settle(response, parse)
  {
  }

  /** As written, a coded error of the service settles to `[object Object]`. */
  lemma CodedErrorSettles(status: int, statusText: string, text: string, parse: string -> Option<Json>,
                          code: string, message: string)
    requires !(200 <= status <= 299) && text != "" && parse(text) == Some(ErrorBody(Coded(code, message)))
    ensures Settle(Answered(status, statusText, text), parse) == Err("[object Object]")
  {
    CodedDetailUnreadable(code, message, Fallback(statusText), Obj(map[]));
  }

  /** With the correction, an error from the service reaches the caller as the service's
      message; a plain detail does so as written too. */
  lemma ServiceErrorSettles(status: int, statusText: string, text: string, parse: string -> Option<Json>, d: Detail)
    requires !(200 <= status <= 299) && text != "" && parse(text) == Some(ErrorBody(d))
    requires d.Coded? ==> d.message != ""
    requires d.Text? ==> d.text != ""
    ensures SettleCorrected(Answered(status, statusText, text), parse) == Err(if d.Coded? then d.message else d.text)
    ensures d.Text? ==> Settle(Answered(status, statusText, text), parse) == Err(d.text)
  {
    ServiceErrorsReadable(d, Fallback(statusText));
  }

  /** An error response without a body, or whose body says nothing, carries the status
      text, or the placeholder when there is none. */
  lemma EmptyErrorSettles(status: int, statusText: string, parse: string -> Option<Json>)
    requires !(200 <= status <= 299)
    ensures Settle(Answered(status, statusText, ""), parse) == Err(Fallback(statusText))
    ensures SettleCorrected(Answered(status, statusText, ""), parse) == Err(Fallback(statusText))
  {
  }

  /** The request `apiFetch` sends, given the token `getToken` read. */
  function Outgoing(env: Option<string>, path: string, init: seq<(string, string)>, body: Option<string>, token: Option<string>)
    : (req: Request)
    ensures req.url == BuildUrl(ApiBase(env), path) && req.body == body
  {
    Request(BuildUrl(ApiBase(env), path), Prepared(init, body, token), body)
  }

  /** `apiFetch(path, {headers: init, body})`: `sent` is the request handed to `fetch`, none
      when reading the token already failed. */
  method ApiFetch(store: BrowserAuth.TokenStore, env: Option<string>, path: string, init: seq<(string, string)>,
                  body: Option<string>, fetch: Request -> Response, parse: string -> Option<Json>)
    returns (sent: Option<Request>, r: Result<Json, string>)
    ensures var token := BrowserAuth.ReadToken(store.inBrowser, store.storage, store.jar, BrowserAuth.AccessKey);
      && (token.Err? ==> sent.None? && r == Err(token.error))
      && (token.Ok? ==> sent == Some(Outgoing(env, path, init, body, token.value)) && r == Settle(fetch(sent.value), parse))
  {
    HeaderNames();
    var url := BuildUrl(ApiBase(env), path);
    var headers := new Headers(init);
    var token := store.GetToken();
    if token.Err? {
      return None, Err(token.error);
    }
    if !headers.Has("Content-Type") && body.Some? && body.value != "" {
      headers.Set("Content-Type", JsonType);
    }
    if token.value.Some? && token.value.value != "" && !headers.Has("Authorization") {
      headers.Set("Authorization", "Bearer " + token.value.value);
    }
    var request := Request(url, headers.fields, body);
    sent := Some(request);
    var response := fetch(request);
    r := Settle(response, parse);
  }
}
