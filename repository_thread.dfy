/** The thread repository of app/repository/thread.py, which reaches the store through the
    PostgREST helpers of app/db/supabase.py with the caller's access token: creating a thread
    with its first messages, listing an owner's threads as summaries, deleting a thread,
    reading one thread with its messages, listing a thread's messages page by page and
    appending messages. Every query string is built from `&`-joined parts; every part that
    names a thread also names its owner. */
module ThreadRepository {

  import opened Outcome
  import opened Text
  import opened JsonValue
  import opened Supabase
  import Traverse
  import opened RestQuery
  import Config

  type Settings = Config.Settings

  /** A message as the thread routes hand it over: `{"role": ..., "content": ...}`, either of
      which may be null. */
  datatype Draft = Draft(role: Option<string>, content: Option<string>)

  /** `_normalize_role`: "user", ignoring case and surrounding whitespace, stays "user";
      everything else, a missing role included, is stored as "assistant". */
  function NormalizeRole(role: Option<string>): (r: string)
    ensures r == "user" || r == "assistant"
    ensures r == "user" <==> role.Some? && Strip(Lower(role.value)) == "user"
  {
    var v := if role.Some? then role.value else "";
    if Strip(Lower(v)) == "user" then "user" else "assistant"
  }

  /** Normalising a stored role again keeps it. */
  lemma NormalizeRoleStable(role: Option<string>)
    ensures NormalizeRole(Some(NormalizeRole(role))) == NormalizeRole(role)
    ensures NormalizeRole(None) == "assistant" && NormalizeRole(Some("")) == "assistant"
  {
    UserKept();
    AssistantKept();
    assert Strip(Lower("")) == "";
  }

  lemma UserKept()
    ensures Strip(Lower("user")) == "user"
  {
    assert Lower("user") == "user";
    NoSpaceAtEnds("user");
  }

  lemma AssistantKept()
    ensures Strip(Lower("assistant")) != "user"
  {
    assert Lower("assistant")[0] == 'a';
    NoSpaceAtEnds(Lower("assistant"));
  }

  // Query strings

  /** `list_threads_for_owner`'s order: anything but "asc", ignoring case, lists newest first. */
  function ListOrder(order: string): (r: string)
    ensures r == "asc" || r == "desc"
    ensures r == "asc" <==> Lower(order) == "asc"
  {
    if Lower(order) != "asc" then "desc" else "asc"
  }

  /** `list_thread_messages`' order: anything but "desc", ignoring case, lists by rising index. */
  function MessagesOrder(order: string): (r: string)
    ensures r == "asc" || r == "desc"
    ensures r == "desc" <==> Lower(order) == "desc"
  {
    if Lower(order) != "desc" then "asc" else "desc"
  }

  const SummaryColumns := ["id", "title", "created_at", "messages(count)", "last:messages(content,created_at)"]
  const DetailColumns := ["id", "title", "created_at", "messages(role,content,created_at)"]
  const MessageColumns := ["index", "role", "content", "created_at"]

  function ListParts(ownerId: string, limit: int, offset: int, order: string): seq<string> {
    [ Eq("owner_id", ownerId),
      Select(SummaryColumns),
      "order=created_at." + ListOrder(order),
      "limit=" + IntToString(limit),
      "offset=" + IntToString(offset),
      "last.order=created_at.desc",
      "last.limit=1" ]
  }

  /** The two filters that tie a request to one thread of one owner. */
  function OwnedParts(threadId: string, ownerId: string): seq<string> {
    [Eq("id", threadId), Eq("owner_id", ownerId)]
  }

  function DeleteParts(threadId: string, ownerId: string): seq<string> {
    OwnedParts(threadId, ownerId)
  }

  function DetailParts(threadId: string, ownerId: string): seq<string> {
    OwnedParts(threadId, ownerId) + [Select(DetailColumns), "messages.order=created_at.asc", "limit=1"]
  }

  /** The ownership probe of `list_thread_messages` and `add_messages_to_thread`. */
  function CheckParts(threadId: string, ownerId: string): seq<string> {
    OwnedParts(threadId, ownerId) + ["select=id", "limit=1"]
  }

  function MessagesParts(threadId: string, limit: int, offset: int, order: string): seq<string> {
    [ Eq("thread_id", threadId),
      Select(MessageColumns),
      "order=index." + MessagesOrder(order),
      "limit=" + IntToString(limit),
      "offset=" + IntToString(offset) ]
  }


  lemma ListSeparable(ownerId: string, limit: int, offset: int, order: string)
    ensures Separable(ListParts(ownerId, limit, offset, order))
  {
    EqSeparable("owner_id", ownerId);
    SummarySeparable();
    OrderSeparable("order=created_at.", ListOrder(order));
    NumberPart("limit=", limit);
    NumberPart("offset=", offset);
    LastSeparable();
    SevenSeparable(Eq("owner_id", ownerId), Select(SummaryColumns), "order=created_at." + ListOrder(order),
                   "limit=" + IntToString(limit), "offset=" + IntToString(offset),
                   "last.order=created_at.desc", "last.limit=1");
  }

  lemma SevenSeparable(a: string, b: string, c: string, d: string, e: string, f: string, g: string)
    requires '&' !in a && '&' !in b && '&' !in c && '&' !in d && '&' !in e && '&' !in f && '&' !in g
    ensures Separable([a, b, c, d, e, f, g])
  {
  }

  lemma SummarySeparable()
    ensures '&' !in Select(SummaryColumns)
  {
    SummaryColumnsSeparable();
    SelectSeparable(SummaryColumns);
  }

  lemma SummaryColumnsSeparable()
    ensures Separable(SummaryColumns)
  {
  }

  lemma LastSeparable()
    ensures '&' !in "last.order=created_at.desc" && '&' !in "last.limit=1"
  {
  }

  lemma MessagesSeparable(threadId: string, limit: int, offset: int, order: string)
    ensures Separable(MessagesParts(threadId, limit, offset, order))
  {
    EqSeparable("thread_id", threadId);
    MessageColumnsSeparable();
    SelectSeparable(MessageColumns);
    OrderSeparable("order=index.", MessagesOrder(order));
    NumberPart("limit=", limit);
    NumberPart("offset=", offset);
    FiveSeparable(Eq("thread_id", threadId), Select(MessageColumns), "order=index." + MessagesOrder(order),
                  "limit=" + IntToString(limit), "offset=" + IntToString(offset));
  }

  lemma FiveSeparable(a: string, b: string, c: string, d: string, e: string)
    requires '&' !in a && '&' !in b && '&' !in c && '&' !in d && '&' !in e
    ensures Separable([a, b, c, d, e])
  {
  }

  lemma OwnedSeparable(threadId: string, ownerId: string)
    ensures Separable(DeleteParts(threadId, ownerId))
    ensures Separable(DetailParts(threadId, ownerId))
    ensures Separable(CheckParts(threadId, ownerId))
  {
    EqSeparable("id", threadId);
    EqSeparable("owner_id", ownerId);
    var own := OwnedParts(threadId, ownerId);
    assert Separable(own);
    DetailTailSeparable();
    SeparableAppend(own, [Select(DetailColumns), "messages.order=created_at.asc", "limit=1"]);
    CheckTailSeparable();
    SeparableAppend(own, ["select=id", "limit=1"]);
  }

  lemma DetailTailSeparable()
    ensures Separable([Select(DetailColumns), "messages.order=created_at.asc", "limit=1"])
  {
    var t := [Select(DetailColumns), "messages.order=created_at.asc", "limit=1"];
    assert '&' !in t[0] by { DetailColumnsSeparable(); SelectSeparable(DetailColumns); }
    assert '&' !in t[1] by { EmbeddedOrderSeparable(); }
    assert '&' !in t[2];
  }

  lemma DetailColumnsSeparable()
    ensures Separable(DetailColumns)
  {
  }

  lemma MessageColumnsSeparable()
    ensures Separable(MessageColumns)
  {
  }

  lemma EmbeddedOrderSeparable()
    ensures '&' !in "messages.order=created_at.asc"
  {
  }

  lemma CheckTailSeparable()
    ensures Separable(["select=id", "limit=1"])
  {
    var t := ["select=id", "limit=1"];
    assert '&' !in t[0];
    assert '&' !in t[1];
  }

  /** The owner listing filters on the owner, sorts as asked, and hands limit and offset to
      the server unchanged. */
  lemma ListQuery(ownerId: string, limit: int, offset: int, order: string)
    ensures var ps := ListParts(ownerId, limit, offset, order);
      && Split(Query(ps), '&') == ps
      && ps[0] == Eq("owner_id", ownerId)
      && ps[2] == "order=created_at." + ListOrder(order)
      && ParseInt(ps[3][6..]) == Some(limit)
      && ParseInt(ps[4][7..]) == Some(offset)
  {
    var ps := ListParts(ownerId, limit, offset, order);
    ListSeparable(ownerId, limit, offset, order);
    QueryParts(ps);
    assert ps[3] == "limit=" + IntToString(limit) && |"limit="| == 6;
    assert ps[4] == "offset=" + IntToString(offset) && |"offset="| == 7;
    NumberParses("limit=", limit);
    NumberParses("offset=", offset);
  }

  /** A numeric parameter reads back as the number. */
  lemma NumberParses(name: string, n: int)
    requires '&' !in name
    ensures ParseInt((name + IntToString(n))[|name|..]) == Some(n)
  {
    NumberPart(name, n);
    IntToStringParses(n);
  }

  /** Delete, detail and the ownership probe all carry both the thread filter and the owner
      filter, as their first two parameters. */
  lemma OwnerFiltered(threadId: string, ownerId: string)
    ensures var own := [Eq("id", threadId), Eq("owner_id", ownerId)];
      && Split(Query(DeleteParts(threadId, ownerId)), '&') == own
      && Split(Query(DetailParts(threadId, ownerId)), '&')[..2] == own
      && Split(Query(CheckParts(threadId, ownerId)), '&') == own + ["select=id", "limit=1"]
  {
    OwnedSeparable(threadId, ownerId);
    QueryParts(DeleteParts(threadId, ownerId));
    QueryParts(DetailParts(threadId, ownerId));
    QueryParts(CheckParts(threadId, ownerId));
  }

  /** The message page is keyed by the thread alone (the probe before it checks the owner),
      sorted by index as asked, with limit and offset unchanged. */
  lemma MessagesQuery(threadId: string, limit: int, offset: int, order: string)
    ensures var ps := MessagesParts(threadId, limit, offset, order);
      && Split(Query(ps), '&') == ps
      && ps[0] == Eq("thread_id", threadId)
      && ps[2] == "order=index." + MessagesOrder(order)
      && ParseInt(ps[3][6..]) == Some(limit)
      && ParseInt(ps[4][7..]) == Some(offset)
  {
    var ps := MessagesParts(threadId, limit, offset, order);
    MessagesSeparable(threadId, limit, offset, order);
    QueryParts(ps);
    assert ps[3] == "limit=" + IntToString(limit) && |"limit="| == 6;
    assert ps[4] == "offset=" + IntToString(offset) && |"offset="| == 7;
    NumberParses("limit=", limit);
    NumberParses("offset=", offset);
  }

  // Creating a thread

  /** The thread row `create_thread_with_messages` inserts. */
  function NewThread(threadId: string, title: string, ownerId: string, now: string): Json {
    Obj(map["id" := Str(threadId), "title" := Str(Strip(title)), "owner_id" := Str(ownerId),
            "created_at" := Str(now)])
  }

  function CreatedRowOf(threadId: string, now: string, m: Draft): Result<Json, Fault> {
    if m.content.None? then Err(TypeFault("'NoneType' object has no attribute 'strip'"))
    else Ok(Obj(map["thread_id" := Str(threadId), "role" := Str(NormalizeRole(m.role)),
                    "content" := Str(Strip(m.content.value)), "created_at" := Str(now)]))
  }

  /** One element of the message rows' list comprehension. */
  function CreatedRow(threadId: string, now: string): (nat, Draft) -> Result<Json, Fault> {
    (k: nat, m: Draft) => CreatedRowOf(threadId, now, m)
  }

  function CreatedRows(threadId: string, now: string, msgs: seq<Draft>): Result<seq<Json>, Fault> {
    Traverse.Prefix(CreatedRow(threadId, now), msgs, |msgs|)
  }

  /** The first messages of a new thread: one row per message, in order, all with the new
      thread's id and creation time, a normalised role and the stripped content; a message
      without content makes the comprehension raise. */
  lemma CreatedRowsShape(threadId: string, now: string, msgs: seq<Draft>)
    ensures CreatedRows(threadId, now, msgs).Ok? <==> forall k :: 0 <= k < |msgs| ==> msgs[k].content.Some?
    ensures var rows := CreatedRows(threadId, now, msgs);
      rows.Ok? ==>
        && |rows.value| == |msgs|
        && forall k :: 0 <= k < |msgs| ==>
             && msgs[k].content.Some?
             && rows.value[k] == Obj(map["thread_id" := Str(threadId), "role" := Str(NormalizeRole(msgs[k].role)),
                                         "content" := Str(Strip(msgs[k].content.value)), "created_at" := Str(now)])
  {
    Traverse.PrefixOk(CreatedRow(threadId, now), msgs, |msgs|);
  }

  /** What `create_thread_with_messages` returns, and the requests it sends, when `service`
      answers after the requests `sent`: the thread's insert first; when that succeeds and
      there are messages, their rows in one second insert; the id once every insert succeeded. */
  function CreateCall(service: Service, sent: seq<Request>, s: Settings, ownerId: string, title: string,
                      msgs: seq<Draft>, token: string, threadId: string, now: string)
    : (Result<string, Fault>, seq<Request>)
  {
    var req := InsertRequest(s, "threads", [NewThread(threadId, title, ownerId, now)], token);
    if req.Err? then (Err(req.error), [])
    else
      var first := InsertBody(service(sent, req.value), req.value.url);
      var rows := CreatedRows(threadId, now, msgs);
      if first.Err? then (Err(first.error), [req.value])
      else if msgs == [] then (Ok(threadId), [req.value])
      else if rows.Err? then (Err(rows.error), [req.value])
      else
        var req2 := InsertRequest(s, "messages", rows.value, token);
        if req2.Err? then (Err(req2.error), [req.value])
        else
          var second := InsertBody(service(sent + [req.value], req2.value), req2.value.url);
          (if second.Err? then Err(second.error) else Ok(threadId), [req.value, req2.value])
  }

  /** `create_thread_with_messages`, with the generated id and the clock reading as inputs. */
  method CreateThreadWithMessages(up: Upstream, s: Settings, ownerId: string, title: string,
                                  msgs: seq<Draft>, token: string, threadId: string, now: string)
    returns (r: Result<string, Fault>)
    modifies up
    ensures var c := CreateCall(up.reply, old(up.sent), s, ownerId, title, msgs, token, threadId, now);
      r == c.0 && up.sent == old(up.sent) + c.1
  {
    var t := RestInsert(up, s, "threads", [NewThread(threadId, title, ownerId, now)], token);
    if t.Err? {
      return Err(t.error);
    }
    if msgs != [] {
      var rows := CreatedRows(threadId, now, msgs);
      if rows.Err? {
        return Err(rows.error);
      }
      var m := RestInsert(up, s, "messages", rows.value, token);
      if m.Err? {
        return Err(m.error);
      }
    }
    return Ok(threadId);
  }

  /** The thread is inserted first and the messages, when there are any, in one second insert;
      a failed thread insert stops before the messages; success answers the new id. */
  lemma CreateOrder(service: Service, sent: seq<Request>, s: Settings, ownerId: string, title: string,
                    msgs: seq<Draft>, token: string, threadId: string, now: string)
    ensures var c := CreateCall(service, sent, s, ownerId, title, msgs, token, threadId, now);
      var req := InsertRequest(s, "threads", [NewThread(threadId, title, ownerId, now)], token);
      && |c.1| <= 2
      && (req.Ok? ==> c.1 != [] && c.1[0] == req.value)
      && (msgs == [] ==> |c.1| <= 1)
      && (req.Ok? && InsertBody(service(sent, req.value), req.value.url).Err? ==>
            c == (Err(InsertBody(service(sent, req.value), req.value.url).error), [req.value]))
      && (|c.1| == 2 ==>
            var rows := CreatedRows(threadId, now, msgs);
            rows.Ok? && c.1[1] == InsertRequest(s, "messages", rows.value, token).value)
      && (c.0.Ok? ==> c.0.value == threadId)
  {
  }

  // Listing an owner's threads

  /** `int(r.get("messages", [{}])[0].get("count", 0)) if r.get("messages") else 0`. */
  function MessageCount(r: Json): Result<int, Fault> {
    var ms :- DictGet(r, "messages");
    if !PyTruthy(ms) then Ok(0)
    else
      var first :- FirstItem(ms);
      var c :- DictGetOr(first, "count", Num(0));
      PyInt(c)
  }

  /** The first 50 characters of the latest message, or None. */
  function Preview(r: Json): Result<Json, Fault> {
    var last := Field(r, "last");
    if !(last.Arr? && last.items != []) then Ok(Null)
    else
      var content :- DictGet(last.items[0], "content");
      var cut :- Slice50(PyOr(content, Str("")));
      Ok(PyOr(cut, Null))
  }

  /** Python's `v[:50]`. */
  function Slice50(v: Json): Result<Json, Fault> {
    match v
    case Str(s) => Ok(Str(Take(s, 50)))
    case Arr(items) => Ok(Arr(if |items| <= 50 then items else items[..50]))
    case _ => Err(TypeFault("object is not subscriptable"))
  }

  /** One iteration of the summary loop. */
  function SummaryEntry(k: nat, r: Json): Result<Json, Fault> {
    var cnt :- MessageCount(r);
    var preview :- Preview(r);
    Ok(Obj(map["id" := Field(r, "id"), "title" := Field(r, "title"), "created_at" := Field(r, "created_at"),
                "message_count" := Num(cnt), "last_message_preview" := preview]))
  }

  /** What the summary loop makes of a select result. */
  function Summaries(rows: Result<Json, Fault>): Result<seq<Json>, Fault> {
    var v :- rows;
    var items :- PyIter(v);
    Traverse.Prefix(SummaryEntry, items, |items|)
  }

  /** What `list_threads_for_owner` returns and sends: one select of the owner's threads, and
      their summaries. */
  function ListCall(service: Service, sent: seq<Request>, s: Settings, ownerId: string, token: string,
                    limit: int, offset: int, order: string)
    : (Result<seq<Json>, Fault>, seq<Request>)
  {
    var req := SelectRequest(s, "threads", Query(ListParts(ownerId, limit, offset, order)), token);
    if req.Err? then (Err(req.error), [])
    else (Summaries(CheckedJson(service(sent, req.value), req.value.url)), [req.value])
  }

  /** `list_threads_for_owner`. */
  method ListThreadsForOwner(up: Upstream, s: Settings, ownerId: string, token: string,
                             limit: int, offset: int, order: string)
    returns (r: Result<seq<Json>, Fault>)
    modifies up
    ensures var c := ListCall(up.reply, old(up.sent), s, ownerId, token, limit, offset, order);
      r == c.0 && up.sent == old(up.sent) + c.1
  {
    var rows := RestSelect(up, s, "threads", Query(ListParts(ownerId, limit, offset, order)), token);
    if rows.Err? {
      return Err(rows.error);
    }
    var items := PyIter(rows.value);
    if items.Err? {
      return Err(items.error);
    }
    var out: seq<Json> := [];
    var i := 0;
    while i < |items.value|
      invariant 0 <= i <= |items.value|
      invariant Traverse.Prefix(SummaryEntry, items.value, i) == Ok(out)
    {
      var e := SummaryEntry(i, items.value[i]);
      if e.Err? {
        Traverse.PrefixSticks(SummaryEntry, items.value, i + 1, |items.value|);
        return Err(e.error);
      }
      out := out + [e.value];
      i := i + 1;
    }
    return Ok(out);
  }

  /** One summary per returned row, in order, each with exactly the five summary keys and the
      row's id, title and creation time. */
  lemma SummariesShape(rows: seq<Json>)
    requires Summaries(Ok(Arr(rows))).Ok?
    ensures var out := Summaries(Ok(Arr(rows))).value;
      && |out| == |rows|
      && forall k :: 0 <= k < |rows| ==>
           && out[k].Obj?
           && out[k].fields.Keys == {"id", "title", "created_at", "message_count", "last_message_preview"}
           && out[k].fields["id"] == Field(rows[k], "id")
           && out[k].fields["title"] == Field(rows[k], "title")
           && out[k].fields["created_at"] == Field(rows[k], "created_at")
           && MessageCount(rows[k]).Ok? && out[k].fields["message_count"] == Num(MessageCount(rows[k]).value)
           && Preview(rows[k]).Ok? && out[k].fields["last_message_preview"] == Preview(rows[k]).value
  {
    Traverse.PrefixOk(SummaryEntry, rows, |rows|);
    var out := Summaries(Ok(Arr(rows))).value;
    forall k | 0 <= k < |rows|
      ensures && out[k].Obj?
              && out[k].fields.Keys == {"id", "title", "created_at", "message_count", "last_message_preview"}
              && out[k].fields["id"] == Field(rows[k], "id")
              && out[k].fields["title"] == Field(rows[k], "title")
              && out[k].fields["created_at"] == Field(rows[k], "created_at")
              && MessageCount(rows[k]).Ok? && out[k].fields["message_count"] == Num(MessageCount(rows[k]).value)
              && Preview(rows[k]).Ok? && out[k].fields["last_message_preview"] == Preview(rows[k]).value
    {
      assert SummaryEntry(k, rows[k]) == Ok(out[k]);
      SummaryEntryShape(k, rows[k]);
    }
  }

  lemma SummaryEntryShape(k: nat, r: Json)
    requires SummaryEntry(k, r).Ok?
    ensures var e := SummaryEntry(k, r).value;
      && e.Obj?
      && e.fields.Keys == {"id", "title", "created_at", "message_count", "last_message_preview"}
      && e.fields["id"] == Field(r, "id")
      && e.fields["title"] == Field(r, "title")
      && e.fields["created_at"] == Field(r, "created_at")
      && MessageCount(r).Ok? && e.fields["message_count"] == Num(MessageCount(r).value)
      && Preview(r).Ok? && e.fields["last_message_preview"] == Preview(r).value
  {
  }

  /** The summary loop fails exactly when some row cannot be summarised. */
  lemma SummariesFail(rows: seq<Json>)
    ensures Summaries(Ok(Arr(rows))).Err? <==> exists k :: 0 <= k < |rows| && SummaryEntry(k, rows[k]).Err?
  {
    Traverse.PrefixOk(SummaryEntry, rows, |rows|);
  }

  /** The count is the embedded `messages(count)` aggregate, and 0 without one. */
  lemma CountRule(r: map<string, Json>, n: int)
    ensures "messages" !in r ==> MessageCount(Obj(r)) == Ok(0)
    ensures "messages" in r && !PyTruthy(r["messages"]) ==> MessageCount(Obj(r)) == Ok(0)
    ensures "messages" in r && r["messages"] == Arr([Obj(map["count" := Num(n)])]) ==> MessageCount(Obj(r)) == Ok(n)
    ensures "messages" in r && r["messages"] == Arr([Obj(map[])]) ==> MessageCount(Obj(r)) == Ok(0)
  {
  }

  /** The preview is the first 50 characters of the latest message's content, and None when
      there is no latest message or its content is empty or null. */
  lemma PreviewRule(r: map<string, Json>, m: map<string, Json>, rest: seq<Json>)
    requires "last" in r && r["last"] == Arr([Obj(m)] + rest)
    ensures "content" !in m || m["content"] == Null || m["content"] == Str("") ==> Preview(Obj(r)) == Ok(Null)
    ensures "content" in m && m["content"].Str? && m["content"].s != "" ==>
      && Preview(Obj(r)) == Ok(Str(Take(m["content"].s, 50)))
      && 1 <= |Take(m["content"].s, 50)| <= 50
  {
    assert (Arr([Obj(m)] + rest)).items[0] == Obj(m);
  }

  // Deleting a thread

  /** What `delete_thread_by_id` returns and sends: one delete scoped by thread and owner, and
      the count of deleted rows, which is 0 when the thread is not the owner's. */
  function DeleteCall(service: Service, sent: seq<Request>, s: Settings, ownerId: string, threadId: string,
                      token: string)
    : (Result<nat, Fault>, seq<Request>)
  {
    var req := DeleteRequest(s, "threads", Query(DeleteParts(threadId, ownerId)), token);
    if req.Err? then (Err(req.error), [])
    else
      var rep := service(sent, req.value);
      (if 400 <= rep.status < 600 then Err(RaiseForStatus(rep, req.value.url).error) else Ok(DeleteCount(rep)),
       [req.value])
  }

  /** `delete_thread_by_id`. */
  method DeleteThreadById(up: Upstream, s: Settings, ownerId: string, threadId: string, token: string)
    returns (r: Result<nat, Fault>)
    modifies up
    ensures var c := DeleteCall(up.reply, old(up.sent), s, ownerId, threadId, token);
      r == c.0 && up.sent == old(up.sent) + c.1
  {
    r := RestDelete(up, s, "threads", Query(DeleteParts(threadId, ownerId)), token);
  }

  // Reading one thread

  /** One element of the detail's message comprehension. */
  function DetailMessage(k: nat, m: Json): Result<Json, Fault> {
    var role :- DictGet(m, "role");
    Ok(Obj(map["role" := PyOr(role, Str("assistant")), "content" := PyOr(Field(m, "content"), Str("")),
                "created_at" := PyOr(Field(m, "created_at"), Str(""))]))
  }

  /** What `get_thread_detail` makes of a select result. */
  function Detail(rows: Json): Result<Json, Fault> {
    if !PyTruthy(rows) then Ok(Obj(map[]))
    else
      var row :- FirstItem(rows);
      var ms :- DictGet(row, "messages");
      var items :- PyIter(PyOr(ms, Arr([])));
      var messages :- Traverse.Prefix(DetailMessage, items, |items|);
      Ok(Obj(map["id" := Field(row, "id"), "title" := Field(row, "title"),
                  "created_at" := Field(row, "created_at"), "messages" := Arr(messages)]))
  }

  /** The detail is `{}` exactly when the select found no row; otherwise it is the first row's
      id, title and creation time with its messages in order, each message with defaults for
      a missing role, content or creation time. */
  lemma DetailShape(rows: Json)
    ensures Detail(rows) == Ok(Obj(map[])) <==> !PyTruthy(rows)
    ensures rows.Arr? && PyTruthy(rows) && Detail(rows).Ok? ==>
      var d := Detail(rows).value;
      var row := rows.items[0];
      && d.Obj? && d.fields.Keys == {"id", "title", "created_at", "messages"}
      && d.fields["id"] == Field(row, "id")
      && var ms := PyOr(Field(row, "messages"), Arr([]));
         ms.Arr? ==>
           && d.fields["messages"].Arr? && |d.fields["messages"].items| == |ms.items|
           && forall k :: 0 <= k < |ms.items| ==>
                DetailMessage(k, ms.items[k]) == Ok(d.fields["messages"].items[k])
  {
    if PyTruthy(rows) && Detail(rows).Ok? {
      assert "id" in Detail(rows).value.fields;
    }
    if rows.Arr? && PyTruthy(rows) && Detail(rows).Ok? {
      var ms := PyOr(Field(rows.items[0], "messages"), Arr([]));
      if ms.Arr? {
        Traverse.PrefixOk(DetailMessage, ms.items, |ms.items|);
      }
    }
  }

  /** A message's defaults: role "assistant", content and creation time "". */
  lemma DetailMessageDefaults(m: map<string, Json>)
    ensures var d := DetailMessage(0, Obj(m));
      && d.Ok? && d.value.Obj?
      && ("role" !in m ==> d.value.fields["role"] == Str("assistant"))
      && ("content" !in m ==> d.value.fields["content"] == Str(""))
      && ("created_at" !in m ==> d.value.fields["created_at"] == Str(""))
      && ("role" in m && PyTruthy(m["role"]) ==> d.value.fields["role"] == m["role"])
  {
  }

  /** What `get_thread_detail` returns and sends: one select of the thread with its messages. */
  function DetailCall(service: Service, sent: seq<Request>, s: Settings, ownerId: string, threadId: string,
                      token: string)
    : (Result<Json, Fault>, seq<Request>)
  {
    var req := SelectRequest(s, "threads", Query(DetailParts(threadId, ownerId)), token);
    if req.Err? then (Err(req.error), [])
    else
      var rows := CheckedJson(service(sent, req.value), req.value.url);
      (if rows.Err? then Err(rows.error) else Detail(rows.value), [req.value])
  }

  /** `get_thread_detail`. */
  method GetThreadDetail(up: Upstream, s: Settings, ownerId: string, threadId: string, token: string)
    returns (r: Result<Json, Fault>)
    modifies up
    ensures var c := DetailCall(up.reply, old(up.sent), s, ownerId, threadId, token);
      r == c.0 && up.sent == old(up.sent) + c.1
  {
    var rows := RestSelect(up, s, "threads", Query(DetailParts(threadId, ownerId)), token);
    if rows.Err? {
      return Err(rows.error);
    }
    r := Detail(rows.value);
  }

  // Listing a thread's messages

  /** One element of the message page's comprehension. */
  function MessageEntry(k: nat, m: Json): Result<Json, Fault> {
    var index :- DictGetOr(m, "index", Num(0));
    var i :- PyInt(index);
    Ok(Obj(map["index" := Num(i), "role" := PyOr(Field(m, "role"), Str("assistant")),
                "content" := PyOr(Field(m, "content"), Str("")),
                "created_at" := PyOr(Field(m, "created_at"), Str(""))]))
  }

  function MessageRows(rows: Json): Result<seq<Json>, Fault> {
    var items :- PyIter(rows);
    Traverse.Prefix(MessageEntry, items, |items|)
  }

  /** One entry per stored message, in the order the server returned them, with index 0,
      role "assistant" and empty content and time for the fields a row lacks. */
  lemma MessageRowsShape(rows: seq<Json>)
    requires MessageRows(Arr(rows)).Ok?
    ensures var out := MessageRows(Arr(rows)).value;
      && |out| == |rows|
      && forall k :: 0 <= k < |rows| ==>
           && MessageEntry(k, rows[k]) == Ok(out[k])
           && out[k].Obj? && out[k].fields.Keys == {"index", "role", "content", "created_at"}
           && (rows[k].Obj? && "index" !in rows[k].fields ==> out[k].fields["index"] == Num(0))
           && (rows[k].Obj? && "role" !in rows[k].fields ==> out[k].fields["role"] == Str("assistant"))
           && (rows[k].Obj? && "content" !in rows[k].fields ==> out[k].fields["content"] == Str(""))
  {
    Traverse.PrefixOk(MessageEntry, rows, |rows|);
    var out := MessageRows(Arr(rows)).value;
    forall k | 0 <= k < |rows|
      ensures MessageEntry(k, rows[k]) == Ok(out[k])
      ensures MessageEntryDefaults(k, rows[k], out[k])
    {
      MessageEntryShape(k, rows[k], out[k]);
    }
  }

  predicate MessageEntryDefaults(k: nat, m: Json, e: Json) {
    && e.Obj? && e.fields.Keys == {"index", "role", "content", "created_at"}
    && (m.Obj? && "index" !in m.fields ==> e.fields["index"] == Num(0))
    && (m.Obj? && "role" !in m.fields ==> e.fields["role"] == Str("assistant"))
    && (m.Obj? && "content" !in m.fields ==> e.fields["content"] == Str(""))
  }

  lemma MessageEntryShape(k: nat, m: Json, e: Json)
    requires MessageEntry(k, m) == Ok(e)
    ensures MessageEntryDefaults(k, m, e)
  {
  }

  /** What `list_thread_messages` returns and sends: the ownership probe first; a thread that
      is not the owner's gives `(False, [])` and no second request; otherwise the page. */
  function MessagesCall(service: Service, sent: seq<Request>, s: Settings, ownerId: string, threadId: string,
                        token: string, limit: int, offset: int, order: string)
    : (Result<(bool, seq<Json>), Fault>, seq<Request>)
  {
    var check := SelectRequest(s, "threads", Query(CheckParts(threadId, ownerId)), token);
    if check.Err? then (Err(check.error), [])
    else
      var found := CheckedJson(service(sent, check.value), check.value.url);
      if found.Err? then (Err(found.error), [check.value])
      else if !PyTruthy(found.value) then (Ok((false, [])), [check.value])
      else
        var req := SelectRequest(s, "messages", Query(MessagesParts(threadId, limit, offset, order)), token);
        if req.Err? then (Err(req.error), [check.value])
        else
          var page := CheckedJson(service(sent + [check.value], req.value), req.value.url);
          var rows := if page.Err? then Err(page.error) else MessageRows(page.value);
          (if rows.Err? then Err(rows.error) else Ok((true, rows.value)), [check.value, req.value])
  }

  /** `list_thread_messages`. */
  method ListThreadMessages(up: Upstream, s: Settings, ownerId: string, threadId: string, token: string,
                            limit: int, offset: int, order: string)
    returns (r: Result<(bool, seq<Json>), Fault>)
    modifies up
    ensures var c := MessagesCall(up.reply, old(up.sent), s, ownerId, threadId, token, limit, offset, order);
      r == c.0 && up.sent == old(up.sent) + c.1
  {
    var found := RestSelect(up, s, "threads", Query(CheckParts(threadId, ownerId)), token);
    if found.Err? {
      return Err(found.error);
    }
    if !PyTruthy(found.value) {
      return Ok((false, []));
    }
    var page := RestSelect(up, s, "messages", Query(MessagesParts(threadId, limit, offset, order)), token);
    if page.Err? {
      return Err(page.error);
    }
    var rows := MessageRows(page.value);
    if rows.Err? {
      return Err(rows.error);
    }
    return Ok((true, rows.value));
  }

  // Appending messages

  function AddedRowOf(threadId: string, m: Draft): Result<Json, Fault> {
    var content := Strip(if m.content.Some? then m.content.value else "");
    if content == "" then Err(ValueError("Message content cannot be empty"))
    else Ok(Obj(map["thread_id" := Str(threadId), "role" := Str(NormalizeRole(m.role)), "content" := Str(content)]))
  }

  /** One iteration of `add_messages_to_thread`'s loop. */
  function AddedRow(threadId: string): (nat, Draft) -> Result<Json, Fault> {
    (k: nat, m: Draft) => AddedRowOf(threadId, m)
  }

  predicate Blank(m: Draft) {
    Strip(if m.content.Some? then m.content.value else "") == ""
  }

  /** The loop accepts the messages exactly when none is blank, and then yields one row per
      message with the thread id, the normalised role and the stripped content, and no index. */
  lemma AddedRowsShape(threadId: string, msgs: seq<Draft>)
    ensures var rows := Traverse.Prefix(AddedRow(threadId), msgs, |msgs|);
      && (rows.Ok? <==> forall k :: 0 <= k < |msgs| ==> !Blank(msgs[k]))
      && (rows.Err? ==> rows.error == ValueError("Message content cannot be empty"))
      && (rows.Ok? ==>
            && |rows.value| == |msgs|
            && forall k :: 0 <= k < |msgs| ==>
                 && rows.value[k] == Obj(map["thread_id" := Str(threadId), "role" := Str(NormalizeRole(msgs[k].role)),
                                             "content" := Str(Strip(msgs[k].content.value))])
                 && Strip(msgs[k].content.value) != ""
                 && "index" !in rows.value[k].fields)
  {
    var f := AddedRow(threadId);
    var rows := Traverse.Prefix(f, msgs, |msgs|);
    Traverse.PrefixOk(f, msgs, |msgs|);
    forall k | 0 <= k < |msgs|
      ensures f(k, msgs[k]).Ok? <==> !Blank(msgs[k])
    {
      AddedRowOfShape(threadId, msgs[k]);
    }
    if rows.Err? {
      Traverse.PrefixErr(f, msgs, |msgs|);
      var k :| 0 <= k < |msgs| && f(k, msgs[k]) == Err(rows.error);
      AddedRowOfShape(threadId, msgs[k]);
    } else {
      forall k | 0 <= k < |msgs|
        ensures rows.value[k] == Obj(map["thread_id" := Str(threadId), "role" := Str(NormalizeRole(msgs[k].role)),
                                         "content" := Str(Strip(msgs[k].content.value))])
        ensures Strip(msgs[k].content.value) != "" && "index" !in rows.value[k].fields
      {
        AddedRowOfShape(threadId, msgs[k]);
      }
    }
  }

  /** One message: a blank one is refused, any other becomes its row. */
  lemma AddedRowOfShape(threadId: string, m: Draft)
    ensures AddedRowOf(threadId, m).Ok? <==> !Blank(m)
    ensures AddedRowOf(threadId, m).Err? ==> AddedRowOf(threadId, m).error == ValueError("Message content cannot be empty")
    ensures AddedRowOf(threadId, m).Ok? ==>
      && m.content.Some? && Strip(m.content.value) != ""
      && AddedRowOf(threadId, m).value == Obj(map["thread_id" := Str(threadId), "role" := Str(NormalizeRole(m.role)),
                                                   "content" := Str(Strip(m.content.value))])
      && "index" !in AddedRowOf(threadId, m).value.fields
  {
    if m.content.None? {
      assert Strip("") == "";
    }
  }

  /** What `add_messages_to_thread` returns and sends: the ownership probe, then the rows,
      then one insert; the count is the number of messages given. */
  function AddCall(service: Service, sent: seq<Request>, s: Settings, ownerId: string, threadId: string,
                   msgs: seq<Draft>, token: string)
    : (Result<(bool, int), Fault>, seq<Request>)
  {
    var check := SelectRequest(s, "threads", Query(CheckParts(threadId, ownerId)), token);
    if check.Err? then (Err(check.error), [])
    else
      var found := CheckedJson(service(sent, check.value), check.value.url);
      var rows := Traverse.Prefix(AddedRow(threadId), msgs, |msgs|);
      if found.Err? then (Err(found.error), [check.value])
      else if !PyTruthy(found.value) then (Ok((false, 0)), [check.value])
      else if rows.Err? then (Err(rows.error), [check.value])
      else
        var req := InsertRequest(s, "messages", rows.value, token);
        if req.Err? then (Err(req.error), [check.value])
        else
          var ins := InsertBody(service(sent + [check.value], req.value), req.value.url);
          (if ins.Err? then Err(ins.error) else Ok((true, |rows.value|)), [check.value, req.value])
  }

  /** `add_messages_to_thread`. */
  method AddMessagesToThread(up: Upstream, s: Settings, ownerId: string, threadId: string,
                             msgs: seq<Draft>, token: string)
    returns (r: Result<(bool, int), Fault>)
    modifies up
    ensures var c := AddCall(up.reply, old(up.sent), s, ownerId, threadId, msgs, token);
      r == c.0 && up.sent == old(up.sent) + c.1
  {
    var found := RestSelect(up, s, "threads", Query(CheckParts(threadId, ownerId)), token);
    if found.Err? {
      return Err(found.error);
    }
    if !PyTruthy(found.value) {
      return Ok((false, 0));
    }
    var rows := Traverse.Convert(AddedRow(threadId), msgs);
    if rows.Err? {
      return Err(rows.error);
    }
    var ins := RestInsert(up, s, "messages", rows.value, token);
    if ins.Err? {
      return Err(ins.error);
    }
    return Ok((true, |rows.value|));
  }

  /** The ownership probe comes first. A thread that is not the owner's gives `(False, 0)`
      and nothing else is sent; on the owner's thread one blank message fails the call with
      a ValueError before the insert; success counts the messages given. */
  lemma AddChecksOwnerFirst(service: Service, sent: seq<Request>, s: Settings, ownerId: string,
                            threadId: string, msgs: seq<Draft>, token: string)
    ensures var c := AddCall(service, sent, s, ownerId, threadId, msgs, token);
      var check := SelectRequest(s, "threads", Query(CheckParts(threadId, ownerId)), token);
      && |c.1| <= 2
      && (check.Ok? ==> c.1 != [] && c.1[0] == check.value)
      && (check.Ok? ==>
            var found := CheckedJson(service(sent, check.value), check.value.url);
            && (found.Ok? && !PyTruthy(found.value) ==> c == (Ok((false, 0)), [check.value]))
            && (found.Ok? && PyTruthy(found.value) && (exists k :: 0 <= k < |msgs| && Blank(msgs[k])) ==>
                  c == (Err(ValueError("Message content cannot be empty")), [check.value])))
      && (c.0.Ok? && c.0.value.0 ==> c.0.value.1 == |msgs|)
  {
    AddedRowsShape(threadId, msgs);
  }

  /** The same probe guards the message page: a thread that is not the owner's gives
      `(False, [])` and no page is requested. */
  lemma MessagesCheckOwnerFirst(service: Service, sent: seq<Request>, s: Settings, ownerId: string,
                                threadId: string, token: string, limit: int, offset: int, order: string)
    ensures var c := MessagesCall(service, sent, s, ownerId, threadId, token, limit, offset, order);
      var check := SelectRequest(s, "threads", Query(CheckParts(threadId, ownerId)), token);
      && |c.1| <= 2
      && (check.Ok? ==> c.1 != [] && c.1[0] == check.value)
      && (check.Ok? ==>
            var found := CheckedJson(service(sent, check.value), check.value.url);
            found.Ok? && !PyTruthy(found.value) ==> c == (Ok((false, [])), [check.value]))
  {
  }
}
