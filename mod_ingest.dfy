/** The stricter `/ingest` normaliser of app/modification/main.py (`normalize_payload`) and how its
    `ingest` and `get_thread` handlers turn exceptions into HTTP statuses. */
module ModificationIngest {

  import opened Outcome
  import opened Text
  import opened JsonValue
  import opened Traverse
  import MainIngest

  type NormMessage = MainIngest.NormMessage
  type Payload = MainIngest.Payload

  /** Roles accepted here: no `tool`, and no coercion to `assistant`. */
  const AllowedRoles: set<string> := {"user", "assistant", "system"}

  /** `raw.get(key).strip()` with no default: a missing key is None, and None (like any other
      non-string) has no `strip`. */
  function StrictStrip(raw: map<string, Json>, key: string): (r: Result<string, Fault>)
    ensures r.Ok? <==> key in raw && raw[key].Str?
    ensures r.Ok? ==> r.value == Strip(raw[key].s)
    ensures r.Err? ==> r.error.TypeFault?
  {
    if key in raw && raw[key].Str? then Ok(Strip(raw[key].s))
    else Err(TypeFault("object has no attribute 'strip'"))
  }

  /** One iteration of the loop at app/modification/main.py:79-89. */
  function CheckMessage(i: nat, m: Json): Result<NormMessage, Fault> {
    if !m.Obj? then Err(ValueError(Indexed(i, " must be an object")))
    else
      var role := Lower(StripStr(m, "role"));
      var content := StripStr(m, "content");
      if role !in AllowedRoles then Err(ValueError(Indexed(i, ".role invalid")))
      else if content == "" then Err(ValueError(Indexed(i, ".content must not be empty")))
      else Ok(MainIngest.NormMessage(role, content))
  }

  datatype Header = Header(title: string, ownerId: string, items: seq<Json>)

  /** The reads and checks before the loop, in the source's order: title, owner id, messages. */
  function ReadHeader(raw: map<string, Json>): Result<Header, Fault> {
    match StrictStrip(raw, "title")
    case Err(e) => Err(e)
    case Ok(title) =>
      if title == "" then Err(ValueError("title must not be empty"))
      else
        match StrictStrip(raw, "owner_id")
        case Err(e) => Err(e)
        case Ok(owner) =>
          if owner == "" then Err(ValueError("owner_id must not be empty"))
          else
            var messages := Field(Obj(raw), "messages");
            if !PyTruthy(messages) then Err(ValueError("messages must not be empty"))
            else
              match PyIter(messages)
              case Err(e) => Err(e)
              case Ok(items) => Ok(Header(title, owner, items))
  }

  /** What `normalize_payload(raw)` returns or raises. */
  function Normalized(raw: map<string, Json>): Result<Payload, Fault> {
    match ReadHeader(raw)
    case Err(e) => Err(e)
    case Ok(h) =>
      match Prefix(CheckMessage, h.items, |h.items|)
      case Err(e) => Err(e)
      case Ok(ms) => Ok(MainIngest.Payload(h.title, h.ownerId, ms))
  }

  /** `normalize_payload`, with its `enumerate` loop appending to `norm_msgs`. */
  method NormalizePayload(raw: map<string, Json>) returns (r: Result<Payload, Fault>)
    ensures r == Normalized(raw)
  {
    var h := ReadHeader(raw);
    if h.Err? {
      return Err(h.error);
    }
    var ms := Convert(CheckMessage, h.value.items);
    if ms.Err? {
      return Err(ms.error);
    }
    return Ok(MainIngest.Payload(h.value.title, h.value.ownerId, ms.value));
  }


  // Properties of the normaliser

  /** Title and owner id are trimmed and non-empty, the owner id is read from `owner_id` only, and
      the body must hold a non-empty list of messages. */
  lemma HeaderRules(raw: map<string, Json>)
    requires Normalized(raw).Ok?
    ensures var p := Normalized(raw).value;
      && "title" in raw && raw["title"].Str? && p.title == Strip(raw["title"].s) && p.title != ""
      && "owner_id" in raw && raw["owner_id"].Str? && p.ownerId == Strip(raw["owner_id"].s)
      && p.ownerId != ""
      && "messages" in raw && PyTruthy(raw["messages"])
  {
  }

  /** Without a usable `owner_id` the body is rejected, whatever `ownerId` holds. */
  lemma NoOwnerAlias(raw: map<string, Json>, alias: Json)
    ensures "owner_id" !in raw ==> Normalized(raw["ownerId" := alias]).Err?
  {
  }

  /** A missing or empty `messages` list is a ValueError once title and owner id have passed. */
  lemma EmptyMessagesRejected(raw: map<string, Json>)
    requires StrictStrip(raw, "title").Ok? && StrictStrip(raw, "title").value != ""
    requires StrictStrip(raw, "owner_id").Ok? && StrictStrip(raw, "owner_id").value != ""
    requires "messages" !in raw || raw["messages"] == Arr([])
    ensures Normalized(raw) == Err(ValueError("messages must not be empty"))
  {
  }

  ghost predicate MessageKept(m: Json, n: NormMessage) {
    && m.Obj?
    && n.role == Lower(StripStr(m, "role")) && n.role in AllowedRoles
    && n.content == StripStr(m, "content") && n.content != ""
  }

  lemma CheckMessageOk(i: nat, m: Json)
    requires CheckMessage(i, m).Ok?
    ensures MessageKept(m, CheckMessage(i, m).value)
  {
  }

  lemma CheckMessageErr(i: nat, m: Json)
    requires CheckMessage(i, m).Err?
    ensures CheckMessage(i, m).error.ValueError?
  {
  }

  lemma HeaderItems(raw: map<string, Json>)
    requires ReadHeader(raw).Ok?
    ensures "messages" in raw && PyIter(raw["messages"]) == Ok(ReadHeader(raw).value.items)
  {
  }

  /** One output message per input message, in order: the role trimmed and lower-cased, one of
      user/assistant/system and otherwise unchanged, the content trimmed and non-empty. */
  lemma MessagesNormalized(raw: map<string, Json>, items: seq<Json>)
    requires Normalized(raw).Ok?
    requires "messages" in raw && raw["messages"] == Arr(items)
    ensures var ms := Normalized(raw).value.messages;
      && |ms| == |items| && items != []
      && forall k :: 0 <= k < |items| ==> MessageKept(items[k], ms[k])
  {
    HeaderItems(raw);
    PrefixOk(CheckMessage, items, |items|);
    var ms := Normalized(raw).value.messages;
    forall k | 0 <= k < |items| ensures MessageKept(items[k], ms[k]) {
      CheckMessageOk(k, items[k]);
    }
  }

  /** A `tool` message, or one with blank content, makes the whole body fail with a ValueError. */
  lemma BadMessageRejected(raw: map<string, Json>, items: seq<Json>, k: nat)
    requires ReadHeader(raw).Ok? && "messages" in raw && raw["messages"] == Arr(items)
    requires k < |items| && items[k].Obj?
    requires Lower(StripStr(items[k], "role")) !in AllowedRoles || StripStr(items[k], "content") == ""
    ensures Normalized(raw).Err? && Normalized(raw).error.ValueError?
  {
    HeaderItems(raw);
    PrefixOk(CheckMessage, items, |items|);
    PrefixErr(CheckMessage, items, |items|);
    var e := Prefix(CheckMessage, items, |items|).error;
    var j :| 0 <= j < |items| && CheckMessage(j, items[j]) == Err(e);
    CheckMessageErr(j, items[j]);
  }

  /** The role `tool`, which app/main.py accepts and stores as `assistant`, is rejected here. */
  lemma ToolRejectedHere(i: nat, m: Json)
    requires m.Obj? && StripStr(m, "role") == "tool"
    ensures CheckMessage(i, m) == Err(ValueError(Indexed(i, ".role invalid")))
  {
    ToolNotAllowed();
  }

  lemma ToolNotAllowed()
    ensures Lower("tool") == "tool" && "tool" !in AllowedRoles
  {
    assert Lower("tool") == "tool";
  }

  // Exception to status mapping of the handlers

  /** The `except` clauses of `ingest`: ValueError and ConfigError become 400, everything else,
      an HTTPException included, 500. */
  function IngestFault(e: Fault): (r: Fault)
    ensures r.HttpFault? && r.detail.Text?
    ensures r.status == 400 <==> (e.ValueError? || e.ConfigError?)
    ensures r.status == 500 <==> !(e.ValueError? || e.ConfigError?)
  {
    if e.ValueError? || e.ConfigError? then HttpFault(400, Text("Value/Config Error: " + FaultText(e)))
    else HttpFault(500, Text("Internal Server Error: " + FaultText(e)))
  }

  /** What `ingest` answers: the normalised payload is handed to the store step, whose outcome
      is the thread id and the inserted rows. */
  function Ingest<T>(raw: map<string, Json>, store: Payload -> Result<T, Fault>): (r: Result<T, Fault>)
    ensures Normalized(raw).Err? ==> r == Err(IngestFault(Normalized(raw).error))
    ensures Normalized(raw).Ok? ==>
      (r.Ok? <==> store(Normalized(raw).value).Ok?)
    ensures Normalized(raw).Ok? && store(Normalized(raw).value).Ok? ==> r == Ok(store(Normalized(raw).value).value)
    ensures Normalized(raw).Ok? && store(Normalized(raw).value).Err? ==>
      r == Err(IngestFault(store(Normalized(raw).value).error))
  {
    match Normalized(raw)
    case Err(e) => Err(IngestFault(e))
    case Ok(p) =>
      match store(p)
      case Err(e) => Err(IngestFault(e))
      case Ok(v) => Ok(v)
  }

  /** Every client mistake in the body is a 400. */
  lemma BadBodyIs400<T>(raw: map<string, Json>, store: Payload -> Result<T, Fault>)
    requires Normalized(raw).Err? && Normalized(raw).error.ValueError?
    ensures Ingest(raw, store).Err? && Ingest(raw, store).error.status == 400
  {
  }

  /** `get_thread`: a fetch that yields nothing is 404, an HTTPException raised inside is passed
      on unchanged, any other exception is 500. */
  function GetThread(fetched: Result<Option<Json>, Fault>): (r: Result<Json, Fault>)
    ensures fetched == Ok(None) ==> r == Err(HttpFault(404, Text("Thread not found")))
    ensures (fetched.Ok? && fetched.value.Some?) ==> r == Ok(fetched.value.value)
    ensures (fetched.Err? && fetched.error.HttpFault?) ==> r == Err(fetched.error)
    ensures (fetched.Err? && !fetched.error.HttpFault?) ==>
      r.Err? && r.error.HttpFault? && r.error.status == 500
  {
    match fetched
    case Ok(None) => Err(HttpFault(404, Text("Thread not found")))
    case Ok(Some(d)) => Ok(d)
    case Err(HttpFault(s, d)) => Err(HttpFault(s, d))
    case Err(e) => Err(HttpFault(500, Text("fetch_thread failed: " + FaultText(e))))
  }
}
