/** The `/ingest` body normaliser of app/main.py (`_normalize_payload`) and the alphabet and padding
    step of its `_b64url_decode` helper. */
module MainIngest {

  import opened Outcome
  import opened Text
  import opened JsonValue
  import opened Traverse

  /** A normalised message: only role and content are kept. */
  datatype NormMessage = NormMessage(role: string, content: string)

  datatype Payload = Payload(title: string, ownerId: string, messages: seq<NormMessage>)

  /** Roles accepted on input; `system` and `tool` are stored as `assistant`. */
  const AcceptedRoles: set<string> := {"user", "assistant", "system", "tool"}

  /** `(v or "").strip()`: a falsy value is the empty string, a truthy value that is not a
      string has no `strip` and raises. */
  function StripOrEmpty(v: Json): (r: Result<string, Fault>)
    ensures !PyTruthy(v) ==> r == Ok("")
    ensures PyTruthy(v) ==> (r.Ok? <==> v.Str?)
    ensures v.Str? ==> r == Ok(Strip(v.s))
  {
    var w := PyOr(v, Str(""));
    if w.Str? then Ok(Strip(w.s)) else Err(TypeFault("object has no attribute 'strip'"))
  }

  /** One iteration of the loop at app/main.py:143-154. */
  function CheckMessage(i: nat, m: Json): Result<NormMessage, Fault> {
    if !m.Obj? then Err(ValueError(Indexed(i, " must be an object")))
    else
      var role := Lower(StripStr(m, "role"));
      var content := StripStr(m, "content");
      if role !in AcceptedRoles then Err(ValueError(Indexed(i, ".role invalid")))
      else if content == "" then Err(ValueError(Indexed(i, ".content must not be empty")))
      else Ok(NormMessage(if role == "user" then "user" else "assistant", content))
  }

  datatype Header = Header(title: string, ownerId: string, items: seq<Json>)

  /** Everything `_normalize_payload` does before its loop: the object check, the three reads
      with their defaults, and the two emptiness checks. */
  function ReadHeader(raw: Json): Result<Header, Fault> {
    if !raw.Obj? then Err(ValueError("JSON body must be an object"))
    else
      match StripOrEmpty(Field(raw, "title"))
      case Err(e) => Err(e)
      case Ok(title) =>
        match StripOrEmpty(PyOr(Field(raw, "owner_id"), Field(raw, "ownerId")))
        case Err(e) => Err(e)
        case Ok(owner) =>
          if title == "" then Err(ValueError("title must not be empty"))
          else if owner == "" then Err(ValueError("owner_id must not be empty (ownerId/owner_id allowed)"))
          else
            match PyIter(PyOr(Field(raw, "messages"), Arr([])))
            case Err(e) => Err(e)
            case Ok(items) => Ok(Header(title, owner, items))
  }

  /** The loop visits the elements of `messages`, or of `[]` when that is missing or falsy. */
  lemma HeaderItems(raw: Json)
    requires ReadHeader(raw).Ok?
    ensures PyIter(PyOr(Field(raw, "messages"), Arr([]))) == Ok(ReadHeader(raw).value.items)
  {
  }

  /** What `_normalize_payload(raw)` returns or raises. */
  function Normalized(raw: Json): (r: Result<Payload, Fault>)
    ensures ReadHeader(raw).Err? ==> r == Err(ReadHeader(raw).error)
    ensures r.Ok? ==>
      && ReadHeader(raw).Ok?
      && r.value.title == ReadHeader(raw).value.title && r.value.ownerId == ReadHeader(raw).value.ownerId
  {
    match ReadHeader(raw)
    case Err(e) => Err(e)
    case Ok(h) =>
      match Prefix(CheckMessage, h.items, |h.items|)
      case Err(e) => Err(e)
      case Ok(ms) => Ok(Payload(h.title, h.ownerId, ms))
  }

  /** `_normalize_payload`, with its loop that appends to `norm_msgs` and raises at the first
      bad message. */
  method NormalizePayload(raw: Json) returns (r: Result<Payload, Fault>)
    ensures r == Normalized(raw)
  {
    var h := ReadHeader(raw);
    if h.Err? {
      return Err(h.error);
    }
    var ms := Convert(CheckMessage, h.value.items);
    if ms.Err? {
      return Err(ms.error);
    }
    return Ok(Payload(h.value.title, h.value.ownerId, ms.value));
  }


  // Properties of the normaliser

  /** A body that is not a JSON object is rejected with a ValueError. */
  lemma NonObjectRejected(raw: Json)
    requires !raw.Obj?
    ensures Normalized(raw) == Err(ValueError("JSON body must be an object"))
  {
  }

  /** On success, title and owner id are trimmed and non-empty; the owner id comes from
      `owner_id` when that is truthy and from `ownerId` otherwise. */
  lemma TitleAndOwner(raw: Json)
    requires Normalized(raw).Ok?
    ensures var p := Normalized(raw).value;
      && Field(raw, "title").Str? && p.title == Strip(Field(raw, "title").s) && p.title != ""
      && p.ownerId != ""
      && (PyTruthy(Field(raw, "owner_id")) ==>
            Field(raw, "owner_id").Str? && p.ownerId == Strip(Field(raw, "owner_id").s))
      && (!PyTruthy(Field(raw, "owner_id")) ==>
            Field(raw, "ownerId").Str? && p.ownerId == Strip(Field(raw, "ownerId").s))
  {
  }

  /** A missing `messages` key is an empty list, and the body is accepted. */
  lemma MissingMessagesAccepted(raw: Json, title: string, owner: string)
    requires raw.Obj? && "messages" !in raw.fields
    requires Field(raw, "title") == Str(title) && Strip(title) != ""
    requires Field(raw, "owner_id") == Str(owner) && Strip(owner) != ""
    ensures Normalized(raw) == Ok(Payload(Strip(title), Strip(owner), []))
  {
  }

  /** For a list of messages, the result has one message per input, in order, each holding
      only role and content, as `MessageKept` says. */
  lemma MessagesNormalized(raw: Json, items: seq<Json>)
    requires Normalized(raw).Ok?
    requires Field(raw, "messages") == Arr(items)
    ensures var ms := Normalized(raw).value.messages;
      && |ms| == |items|
      && forall k :: 0 <= k < |items| ==> MessageKept(items[k], ms[k])
  {
    HeaderItems(raw);
    assert PyOr(Field(raw, "messages"), Arr([])) == Arr(items);
    PrefixOk(CheckMessage, items, |items|);
    var ms := Normalized(raw).value.messages;
    forall k | 0 <= k < |items| ensures MessageKept(items[k], ms[k]) {
      CheckMessageOk(k, items[k]);
    }
  }

  /** A message the loop keeps: the input is an object with an accepted role, the content is
      the trimmed, non-empty input content, and the role is `user` exactly when the trimmed,
      lower-cased input role is `user`, `assistant` otherwise. */
  ghost predicate MessageKept(m: Json, n: NormMessage) {
    var role := Lower(StripStr(m, "role"));
    && m.Obj?
    && role in AcceptedRoles
    && n.content == StripStr(m, "content") && n.content != ""
    && (n.role == "user" <==> role == "user")
    && (n.role == "assistant" <==> role != "user")
  }

  lemma CheckMessageOk(i: nat, m: Json)
    requires CheckMessage(i, m).Ok?
    ensures MessageKept(m, CheckMessage(i, m).value)
  {
  }

  /** A `tool` or `system` message with content is kept, as an `assistant` message. */
  lemma ToolCoerced(i: nat, m: Json, role: string)
    requires m.Obj? && StripStr(m, "role") == role && (role == "tool" || role == "system")
    requires StripStr(m, "content") != ""
    ensures CheckMessage(i, m) == Ok(NormMessage("assistant", StripStr(m, "content")))
  {
    if role == "tool" {
      ToolAccepted();
    } else {
      SystemAccepted();
    }
  }

  lemma ToolAccepted()
    ensures Lower("tool") == "tool" && "tool" in AcceptedRoles && "tool" != "user"
  {
    assert Lower("tool") == "tool";
  }

  lemma SystemAccepted()
    ensures Lower("system") == "system" && "system" in AcceptedRoles && "system" != "user"
  {
    assert Lower("system") == "system";
  }

  /** A message whose role is not one of the four accepted ones, or whose content is blank,
      makes the whole body fail with a ValueError, whatever the other messages hold. */
  lemma BadMessageRejected(raw: Json, items: seq<Json>, k: nat)
    requires ReadHeader(raw).Ok? && Field(raw, "messages") == Arr(items)
    requires k < |items| && items[k].Obj?
    requires Lower(StripStr(items[k], "role")) !in AcceptedRoles
          || StripStr(items[k], "content") == ""
    ensures Normalized(raw).Err? && Normalized(raw).error.ValueError?
  {
    HeaderItems(raw);
    assert PyOr(Field(raw, "messages"), Arr([])) == Arr(items);
    PrefixOk(CheckMessage, items, |items|);
    PrefixErr(CheckMessage, items, |items|);
    var e := Prefix(CheckMessage, items, |items|).error;
    var j :| 0 <= j < |items| && CheckMessage(j, items[j]) == Err(e);
    CheckMessageErr(j, items[j]);
  }

  /** The loop body raises only ValueError. */
  lemma CheckMessageErr(i: nat, m: Json)
    requires CheckMessage(i, m).Err?
    ensures CheckMessage(i, m).error.ValueError?
  {
  }

  // The base64url step of `_b64url_decode`

  /** The digit for the six-bit value `v` in the base64 alphabet (Table 1 of RFC 4648) and in
      the base64url alphabet (Table 2): they differ only for 62 and 63. */
  function Base64Digit(v: nat, url: bool): char
    requires v < 64
  {
    if v < 26 then ('A' as int + v) as char
    else if v < 52 then ('a' as int + v - 26) as char
    else if v < 62 then ('0' as int + v - 52) as char
    else if v == 62 then (if url then '-' else '+')
    else (if url then '_' else '/')
  }

  /** `s.replace('-', '+').replace('_', '/')`. */
  function ToStandardAlphabet(s: string): (r: string)
    ensures |r| == |s| && forall k :: 0 <= k < |s| ==> r[k] == StandardChar(s[k])
  {
    ReplaceChar(ReplaceChar(s, '-', '+'), '_', '/')
  }

  function StandardChar(c: char): char {
    if c == '-' then '+' else if c == '_' then '/' else c
  }

  function PadCount(n: nat): nat {
    (4 - n % 4) % 4
  }

  predicate Aligned(n: nat, p: nat) {
    (n + p) % 4 == 0
  }

  /** The string `_b64url_decode` hands to `base64.b64decode`. */
  function B64Padded(s: string): string {
    ToStandardAlphabet(s) + seq(PadCount(|s|), k => '=')
  }

  /** The padded string has a length that is a multiple of four, fewer than four `=` are added,
      it is the least such padding, and an already aligned string gets none. */
  lemma PaddingAligns(s: string)
    ensures |B64Padded(s)| % 4 == 0
    ensures PadCount(|s|) < 4
    ensures forall p :: 0 <= p < PadCount(|s|) ==> !Aligned(|s|, p)
    ensures |s| % 4 == 0 ==> B64Padded(s) == ToStandardAlphabet(s)
  {
  }

  /** Each base64url digit becomes the base64 digit with the same six-bit value, and no `-` or
      `_` survives. */
  lemma AlphabetTranslated(s: string)
    ensures forall v :: 0 <= v < 64 ==> StandardChar(Base64Digit(v, true)) == Base64Digit(v, false)
    ensures forall k :: 0 <= k < |s| ==> ToStandardAlphabet(s)[k] != '-' && ToStandardAlphabet(s)[k] != '_'
  {
  }
}
