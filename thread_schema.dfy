/** The request and response models of app/schemas/thread.py under pydantic v2: field types,
    `min_length`, `Literal` choices, the after-validators that trim and lower-case, the
    `ownerId` alias with population by field name, and unknown fields ignored. Pydantic checks
    every field and reports all failures together, so a rejected body yields the list of
    failures in field order. */
module ThreadSchema {

  import opened Outcome
  import opened Text
  import opened JsonValue

  /** Why a field was refused, one per pydantic error type the models can produce. */
  datatype IssueKind =
    | Missing         // missing
    | NotString       // string_type
    | TooShort        // string_too_short (min_length=1)
    | NotAllowedLiteral  // literal_error (a value outside a `Literal`)
    | Blank           // value_error raised by a strip validator
    | NotList         // list_type
    | NotObject       // model_type / dict_type

  /** A failure at a location: field names, and list positions as decimal strings. */
  datatype Issue = Issue(loc: seq<string>, kind: IssueKind)

  datatype MessageIn = MessageIn(role: string, content: string)

  datatype IngestRequest = IngestRequest(title: string, ownerId: string, messages: seq<MessageIn>)

  /** `AllowedRole`: the four literals. */
  const AllowedRole: set<string> := {"user", "assistant", "system", "tool"}

  /** A required `str` field with `min_length=1` followed by the strip-and-reject validator. */
  function TrimmedField(v: Json): (r: Result<string, IssueKind>)
    ensures r.Ok? <==> v.Str? && Strip(v.s) != ""
    ensures r.Ok? ==> r.value == Strip(v.s)
  {
    if !v.Str? then Err(NotString)
    else if |v.s| < 1 then Err(TooShort)
    else if Strip(v.s) == "" then Err(Blank)
    else Ok(Strip(v.s))
  }

  /** The `role` field: the `Literal` check comes first and is exact, so the lower-casing
      validator only ever sees one of the four lower-case literals. */
  function RoleField(v: Json): (r: Result<string, IssueKind>)
    ensures r.Ok? <==> v.Str? && v.s in AllowedRole
    ensures r.Ok? ==> r.value == v.s
  {
    if v.Str? && v.s in AllowedRole then Ok(Lower(v.s)) else Err(NotAllowedLiteral)
  }

  /** The failures of one field, at location `loc`. */
  function FieldIssues<T>(present: bool, r: Result<T, IssueKind>, loc: seq<string>): seq<Issue> {
    if !present then [Issue(loc, Missing)]
    else if r.Err? then [Issue(loc, r.error)]
    else []
  }

  function MessageIssues(i: nat, m: Json): seq<Issue> {
    var at := ["messages", IntToString(i)];
    if !m.Obj? then [Issue(at, NotObject)]
    else
      FieldIssues("role" in m.fields, RoleField(Field(m, "role")), at + ["role"])
      + FieldIssues("content" in m.fields, TrimmedField(Field(m, "content")), at + ["content"])
  }

  /** The failures of the messages `items[from..]`, in list order. */
  function MessagesIssues(items: seq<Json>, from: nat): seq<Issue>
    requires from <= |items|
    decreases |items| - from
  {
    if from == |items| then [] else MessageIssues(from, items[from]) + MessagesIssues(items, from + 1)
  }

  /** Where `owner_id` is read from: the alias `ownerId` first, then the field name. */
  function OwnerKey(body: map<string, Json>): string {
    if "ownerId" in body then "ownerId" else "owner_id"
  }

  function AllIssues(body: map<string, Json>): seq<Issue> {
    var owner := OwnerKey(body);
    var messages := if "messages" in body then body["messages"] else Arr([]);
    FieldIssues("title" in body, TrimmedField(Field(Obj(body), "title")), ["title"])
    + FieldIssues(owner in body, TrimmedField(Field(Obj(body), owner)), ["ownerId"])
    + (if messages.Arr? then MessagesIssues(messages.items, 0) else [Issue(["messages"], NotList)])
  }

  function OkOr(r: Result<string, IssueKind>): string {
    if r.Ok? then r.value else ""
  }

  /** The model built from a message that passed: role lower-cased by the validator, content
      trimmed. */
  function BuildMessage(m: Json): MessageIn {
    MessageIn(Lower(OkOr(RoleField(Field(m, "role")))), OkOr(TrimmedField(Field(m, "content"))))
  }

  /** `IngestRequest.model_validate(body)`. */
  function Validate(body: Json): Result<IngestRequest, seq<Issue>> {
    if !body.Obj? then Err([Issue([], NotObject)])
    else
      var b := body.fields;
      var issues := AllIssues(b);
      if issues != [] then Err(issues)
      else
        var items := if "messages" in b then b["messages"].items else [];
        Ok(IngestRequest(
          TrimmedField(Field(body, "title")).value,
          TrimmedField(Field(body, OwnerKey(b))).value,
          seq(|items|, k requires 0 <= k < |items| => BuildMessage(items[k]))))
  }

  // Properties

  ghost predicate MessageValid(m: Json) {
    m.Obj? && Field(m, "role").Str? && Field(m, "role").s in AllowedRole
    && Field(m, "content").Str? && Strip(Field(m, "content").s) != ""
  }

  lemma {:induction false} MessagesIssuesEmpty(items: seq<Json>, from: nat)
    requires from <= |items|
    ensures MessagesIssues(items, from) == [] <==> forall k :: from <= k < |items| ==> MessageValid(items[k])
    decreases |items| - from
  {
    if from < |items| {
      var here, rest := MessageIssues(from, items[from]), MessagesIssues(items, from + 1);
      MessageIssuesEmpty(from, items[from]);
      MessagesIssuesEmpty(items, from + 1);
      assert MessagesIssues(items, from) == here + rest;
      assert |here + rest| == |here| + |rest|;
      assert (forall k :: from <= k < |items| ==> MessageValid(items[k])) <==>
             MessageValid(items[from]) && (forall k :: from + 1 <= k < |items| ==> MessageValid(items[k]));
    }
  }

  lemma MessageIssuesEmpty(i: nat, m: Json)
    ensures MessageIssues(i, m) == [] <==> MessageValid(m)
  {
  }

  /** A body is accepted exactly when it is an object whose title and owner id (under either
      name) are strings that are not blank, and whose `messages`, when present, is a list of
      objects each with one of the four role literals and non-blank string content. */
  lemma ValidateAccepts(body: Json)
    ensures Validate(body).Ok? <==>
      && body.Obj?
      && Field(body, "title").Str? && Strip(Field(body, "title").s) != ""
      && Field(body, OwnerKey(body.fields)).Str? && Strip(Field(body, OwnerKey(body.fields)).s) != ""
      && (Field(body, "messages").Arr? || "messages" !in body.fields)
      && (Field(body, "messages").Arr? ==>
            forall k :: 0 <= k < |Field(body, "messages").items| ==> MessageValid(Field(body, "messages").items[k]))
  {
    if body.Obj? {
      var b := body.fields;
      if "messages" in b && b["messages"].Arr? {
        MessagesIssuesEmpty(b["messages"].items, 0);
      }
    }
  }

  /** What an accepted body holds: title and owner id trimmed and non-empty, one message per
      input message in order, each with its role literal unchanged and its content trimmed. */
  lemma ValidatedShape(body: Json)
    requires Validate(body).Ok?
    ensures var q := Validate(body).value;
      && body.Obj?
      && q.title == Strip(Field(body, "title").s) && q.title != ""
      && q.ownerId == Strip(Field(body, OwnerKey(body.fields)).s) && q.ownerId != ""
      && ("messages" !in body.fields ==> q.messages == [])
      && ("messages" in body.fields ==>
            var items := body.fields["messages"].items;
            && |q.messages| == |items|
            && forall k :: 0 <= k < |items| ==> MessageValid(items[k]) && MessageBuilt(items[k], q.messages[k]))
  {
    ValidateAccepts(body);
    var b := body.fields;
    if "messages" in b {
      var items := b["messages"].items;
      var q := Validate(body).value;
      forall k | 0 <= k < |items| ensures MessageBuilt(items[k], q.messages[k]) {
        BuildMessageShape(items[k]);
      }
    }
  }

  /** A validated message keeps its role literal and its trimmed, non-empty content. */
  ghost predicate MessageBuilt(m: Json, q: MessageIn)
    requires MessageValid(m)
  {
    q.role == Field(m, "role").s && q.role in AllowedRole
    && q.content == Strip(Field(m, "content").s) && q.content != ""
  }

  lemma BuildMessageShape(m: Json)
    requires MessageValid(m)
    ensures MessageBuilt(m, BuildMessage(m))
  {
    var s := Field(m, "role").s;
    assert Lower("user") == "user" && Lower("assistant") == "assistant";
    assert Lower("system") == "system" && Lower("tool") == "tool";
  }

  /** `owner_id` is taken from `ownerId` when that key is present, from `owner_id` otherwise. */
  lemma OwnerAlias(body: map<string, Json>, owner: string)
    requires Validate(Obj(body)).Ok?
    ensures "ownerId" in body ==> Validate(Obj(body)).value.ownerId == Strip(body["ownerId"].s)
    ensures "ownerId" !in body ==> "owner_id" in body && Validate(Obj(body)).value.ownerId == Strip(body["owner_id"].s)
  {
    ValidateAccepts(Obj(body));
  }

  /** Keys the model does not declare change nothing. */
  lemma UnknownFieldIgnored(body: map<string, Json>, key: string, v: Json)
    requires key !in {"title", "ownerId", "owner_id", "messages"}
    ensures Validate(Obj(body[key := v])) == Validate(Obj(body))
  {
    assert Field(Obj(body[key := v]), "title") == Field(Obj(body), "title");
    assert OwnerKey(body[key := v]) == OwnerKey(body);
    assert AllIssues(body[key := v]) == AllIssues(body);
  }

  /** The role literal check is case-sensitive: the lower-casing validator runs after it, so a
      capitalised role is refused. */
  lemma RoleCaseSensitive()
    ensures RoleField(Str("User")) == Err(NotAllowedLiteral)
    ensures Lower("User") in AllowedRole
  {
    assert Lower("User") == "user";
  }

  /** `min_length=1` adds nothing to the strip validator: content is accepted exactly when its
      trimmed form is non-empty, the same rule as the hand-written normaliser. */
  lemma MinLengthSubsumed(s: string)
    ensures TrimmedField(Str(s)).Ok? <==> Strip(s) != ""
    ensures Strip(s) != "" ==> |s| >= 1
  {
  }

  // Response models

  /** `MessageOut.role`: only the two stored roles validate. */
  function MessageOutRole(role: string): (r: Result<string, IssueKind>)
    ensures r.Ok? <==> role == "user" || role == "assistant"
    ensures r.Err? ==> r.error == NotAllowedLiteral
  {
    if role == "user" || role == "assistant" then Ok(role) else Err(NotAllowedLiteral)
  }

  /** `IngestResponse.status`: only `"saved"` validates. */
  function IngestResponseStatus(status: string): (r: Result<string, IssueKind>)
    ensures r.Ok? <==> status == "saved"
    ensures r.Ok? ==> r.value == "saved"
    ensures r.Err? ==> r.error == NotAllowedLiteral
  {
    if status == "saved" then Ok(status) else Err(NotAllowedLiteral)
  }
}
