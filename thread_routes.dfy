/** The thread endpoints of app/routes/thread.py. FastAPI resolves the dependencies first (the
    bearer token and the current user of app/db/deps.py, which the routes receive already
    computed), then checks the path and query parameters, and only then runs the handler.
    Every handler reads the owner from the user, calls its repository function and decides
    on the outcome: an HTTPException raised on the way passes through unchanged, any other
    exception becomes a fixed 500 answer. */
module ThreadRoutes {

  import opened Outcome
  import opened Text
  import opened JsonValue
  import opened Supabase
  import opened ThreadRepository
  import ThreadSchema
  import Traverse
  import Config

  const NotAuthenticated := HttpFault(401, Text("Not authenticated"))
  const Unauthorized := HttpFault(401, Coded("UNAUTHORIZED", "Missing or invalid access token"))
  const NotFound := HttpFault(404, Coded("NOT_FOUND", "Thread not found"))
  const EmptyContent := HttpFault(422, Coded("VALIDATION_ERROR", "Message content cannot be empty"))
  const ListFailed := HttpFault(500, Coded("DB_QUERY_FAILED", "Failed to fetch threads from Supabase"))
  const DeleteFailed := HttpFault(500, Coded("DB_DELETE_FAILED", "Failed to delete thread"))
  const DetailFailed := HttpFault(500, Coded("DB_FETCH_FAILED", "Failed to retrieve thread or messages"))
  const MessagesFailed := HttpFault(500, Coded("DB_FETCH_FAILED", "Failed to fetch messages"))
  const InsertFailed := HttpFault(500, Coded("DB_INSERT_FAILED", "Failed to insert messages into Supabase"))

  /** FastAPI's answer to a path or query parameter outside its declared bounds. */
  const ParamsInvalid := HttpFault(422, Text("Request parameters failed validation"))

  // Parameters

  /** `user.get("id")` followed by `if not owner_id`: the owner is the user's id when it is a
      non-empty string. */
  function OwnerOf(user: Json): (r: Option<string>)
    ensures r.Some? <==> Field(user, "id").Str? && PyTruthy(Field(user, "id"))
    ensures r.Some? ==> Field(user, "id") == Str(r.value)
  {
    var id := Field(user, "id");
    if id.Str? && id.s != "" then Some(id.s) else None
  }

  /** `Path(..., min_length=10)`. */
  predicate ThreadIdValid(threadId: string) {
    |threadId| >= 10
  }

  /** A page of a listing, after the query's defaults are filled in. */
  datatype Page = Page(limit: int, offset: int, order: string)

  function Given<T>(v: Option<T>, default: T): T {
    if v.Some? then v.value else default
  }

  /** `GET /threads`: limit 20, offset 0 and order "desc" unless given. */
  function ListPage(limit: Option<int>, offset: Option<int>, order: Option<string>): Page {
    Page(Given(limit, 20), Given(offset, 0), Given(order, "desc"))
  }

  /** `GET /threads/{id}/messages`: limit 50, offset 0 and order "asc" unless given. */
  function MessagesPage(limit: Option<int>, offset: Option<int>, order: Option<string>): Page {
    Page(Given(limit, 50), Given(offset, 0), Given(order, "asc"))
  }

  /** `pattern="^(asc|desc)$"`, matched by pydantic's regular expressions, where `$` is the end
      of the text. */
  predicate OrderValid(order: string) {
    order == "asc" || order == "desc"
  }

  /** `ge=1, le=100` on the limit, `ge=0` on the offset. */
  predicate ListPageValid(p: Page) {
    1 <= p.limit <= 100 && 0 <= p.offset && OrderValid(p.order)
  }

  /** `ge=1, le=200` on the limit, `ge=0` on the offset. */
  predicate MessagesPageValid(p: Page) {
    1 <= p.limit <= 200 && 0 <= p.offset && OrderValid(p.order)
  }

  /** The defaults pass their own bounds, and an order that passes the pattern reaches the
      store unchanged: the repositories' fallbacks for other spellings never apply. */
  lemma PagesReachStore(p: Page)
    ensures ListPageValid(ListPage(None, None, None)) && MessagesPageValid(MessagesPage(None, None, None))
    ensures OrderValid(p.order) ==> ListOrder(p.order) == p.order && MessagesOrder(p.order) == p.order
  {
    assert Lower("asc") == "asc";
    assert Lower("desc") == "desc";
  }

  /** `[{"role": m.role, "content": m.content} for m in body.messages]`. */
  function Drafts(ms: seq<ThreadSchema.MessageIn>): (ds: seq<Draft>)
    ensures |ds| == |ms|
    ensures forall k :: 0 <= k < |ms| ==> ds[k] == Draft(Some(ms[k].role), Some(ms[k].content))
  {
    seq(|ms|, k requires 0 <= k < |ms| => Draft(Some(ms[k].role), Some(ms[k].content)))
  }

  // Answers

  /** `except HTTPException: raise` followed by `except Exception: raise HTTPException(...)`. */
  function Reraise(e: Fault, other: Fault): Fault {
    if e.HttpFault? then e else other
  }

  /** `POST /threads`: the new id with status "saved"; a failure that is no HTTPException
      becomes a 500 whose text carries the exception's message. */
  function CreateAnswer(o: Result<string, Fault>): (r: Result<Json, Fault>)
    ensures r.Ok? <==> o.Ok?
    ensures r.Ok? ==> r.value == Obj(map["thread_id" := Str(o.value), "status" := Str("saved")])
    ensures r.Err? ==> r.error.HttpFault?
    ensures o.Err? && !o.error.HttpFault? ==>
      r.error.status == 500 && r.error.detail.Text?
      && StartsWith(r.error.detail.text, "Internal Server Error: ")
      && r.error.detail.text[23..] == FaultText(o.error)
  {
    if o.Err? then Err(Reraise(o.error, HttpFault(500, Text("Internal Server Error: " + FaultText(o.error)))))
    else Ok(Obj(map["thread_id" := Str(o.value), "status" := Str("saved")]))
  }

  /** `GET /threads`: the summaries under "threads"; any other failure is the fixed
      DB_QUERY_FAILED answer. */
  function ListAnswer(o: Result<seq<Json>, Fault>): (r: Result<Json, Fault>)
    ensures r.Ok? <==> o.Ok?
    ensures r.Ok? ==> r.value.Obj? && r.value.fields.Keys == {"threads"} && r.value.fields["threads"] == Arr(o.value)
    ensures r.Err? ==> r.error.HttpFault?
    ensures o.Err? && !o.error.HttpFault? ==> r == Err(ListFailed)
  {
    if o.Err? then Err(Reraise(o.error, ListFailed)) else Ok(Obj(map["threads" := Arr(o.value)]))
  }

  /** `DELETE /threads/{id}`: `{"ok": true}` exactly when at least one row went; no row is a
      404, and any other failure the fixed DB_DELETE_FAILED answer. */
  function DeleteAnswer(o: Result<nat, Fault>): (r: Result<Json, Fault>)
    ensures r.Ok? <==> o.Ok? && o.value > 0
    ensures r.Ok? ==> r.value == Obj(map["ok" := Bool(true)])
    ensures r.Err? ==> r.error.HttpFault?
    ensures o == Ok(0) ==> r == Err(NotFound)
    ensures o.Err? && !o.error.HttpFault? ==> r == Err(DeleteFailed)
  {
    if o.Err? then Err(Reraise(o.error, DeleteFailed))
    else if o.value == 0 then Err(NotFound)
    else Ok(Obj(map["ok" := Bool(true)]))
  }

  /** `GET /threads/{id}`: the detail when it is not empty, a 404 when it is, and any other
      failure the fixed DB_FETCH_FAILED answer. */
  function DetailAnswer(o: Result<Json, Fault>): (r: Result<Json, Fault>)
    ensures r.Ok? <==> o.Ok? && PyTruthy(o.value)
    ensures r.Ok? ==> r.value == o.value
    ensures r.Err? ==> r.error.HttpFault?
    ensures o.Ok? && !PyTruthy(o.value) ==> r == Err(NotFound)
    ensures o.Err? && !o.error.HttpFault? ==> r == Err(DetailFailed)
  {
    if o.Err? then Err(Reraise(o.error, DetailFailed))
    else if !PyTruthy(o.value) then Err(NotFound)
    else Ok(o.value)
  }

  /** `GET /threads/{id}/messages`: the page under "messages" for an owned thread, a 404 for
      one that is not, and any other failure the fixed DB_FETCH_FAILED answer. */
  function MessagesAnswer(o: Result<(bool, seq<Json>), Fault>): (r: Result<Json, Fault>)
    ensures r.Ok? <==> o.Ok? && o.value.0
    ensures r.Ok? ==> r.value.Obj? && r.value.fields.Keys == {"messages"} && r.value.fields["messages"] == Arr(o.value.1)
    ensures r.Err? ==> r.error.HttpFault?
    ensures o.Ok? && !o.value.0 ==> r == Err(NotFound)
    ensures o.Err? && !o.error.HttpFault? ==> r == Err(MessagesFailed)
  {
    if o.Err? then Err(Reraise(o.error, MessagesFailed))
    else if !o.value.0 then Err(NotFound)
    else Ok(Obj(map["messages" := Arr(o.value.1)]))
  }

  /** `POST /threads/{id}/messages`: the id, the count and status "saved" for an owned thread,
      a 404 for one that is not; a ValueError is a 422 with its message, any other failure
      the fixed DB_INSERT_FAILED answer. */
  function AddAnswer(threadId: string, o: Result<(bool, int), Fault>): (r: Result<Json, Fault>)
    ensures r.Ok? <==> o.Ok? && o.value.0
    ensures r.Ok? ==>
      r.value == Obj(map["thread_id" := Str(threadId), "added_count" := Num(o.value.1), "status" := Str("saved")])
    ensures r.Err? ==> r.error.HttpFault?
    ensures o.Ok? && !o.value.0 ==> r == Err(NotFound)
    ensures o.Err? && o.error.ValueError? ==> r == Err(HttpFault(422, Coded("VALIDATION_ERROR", o.error.message)))
    ensures o.Err? && !o.error.HttpFault? && !o.error.ValueError? ==> r == Err(InsertFailed)
  {
    if o.Err? then
      Err(if o.error.ValueError? then HttpFault(422, Coded("VALIDATION_ERROR", o.error.message))
          else Reraise(o.error, InsertFailed))
    else if !o.value.0 then Err(NotFound)
    else Ok(Obj(map["thread_id" := Str(threadId), "added_count" := Num(o.value.1), "status" := Str("saved")]))
  }

  /** Only the creation answer tells one failure from another: the other five endpoints give
      every failure that is no HTTPException (or, when adding, no ValueError) the same
      answer, so nothing of the store's error reaches the client. */
  lemma FailuresStayPrivate(e1: Fault, e2: Fault, threadId: string)
    requires !e1.HttpFault? && !e2.HttpFault?
    ensures ListAnswer(Err(e1)) == ListAnswer(Err(e2))
    ensures DeleteAnswer(Err(e1)) == DeleteAnswer(Err(e2))
    ensures DetailAnswer(Err(e1)) == DetailAnswer(Err(e2))
    ensures MessagesAnswer(Err(e1)) == MessagesAnswer(Err(e2))
    ensures !e1.ValueError? && !e2.ValueError? ==> AddAnswer(threadId, Err(e1)) == AddAnswer(threadId, Err(e2))
    ensures FaultText(e1) != FaultText(e2) ==> CreateAnswer(Err(e1)) != CreateAnswer(Err(e2))
  {
    if FaultText(e1) != FaultText(e2) {
      var t1, t2 := CreateAnswer(Err(e1)).error.detail.text, CreateAnswer(Err(e2)).error.detail.text;
      assert t1[23..] != t2[23..];
    }
  }

  // Endpoints

  /** `POST /threads`, with the id and the clock reading the repository generates as inputs. */
  method CreateThread(up: Upstream, s: Config.Settings, user: Json, token: string, title: string,
                      msgs: seq<ThreadSchema.MessageIn>, threadId: string, now: string)
    returns (r: Result<Json, Fault>)
    modifies up
    ensures OwnerOf(user).None? ==> r == Err(NotAuthenticated) && up.sent == old(up.sent)
    ensures OwnerOf(user).Some? ==>
      var c := CreateCall(up.reply, old(up.sent), s, OwnerOf(user).value, title, Drafts(msgs), token, threadId, now);
      r == CreateAnswer(c.0) && up.sent == old(up.sent) + c.1
  {
    var owner := OwnerOf(user);
    if owner.None? {
      return Err(NotAuthenticated);
    }
    var o := CreateThreadWithMessages(up, s, owner.value, title, Drafts(msgs), token, threadId, now);
    r := CreateAnswer(o);
  }

  /** `GET /threads`. */
  method GetThreads(up: Upstream, s: Config.Settings, user: Json, token: string,
                    limit: Option<int>, offset: Option<int>, order: Option<string>)
    returns (r: Result<Json, Fault>)
    modifies up
    ensures var p := ListPage(limit, offset, order);
      && (!ListPageValid(p) ==> r == Err(ParamsInvalid) && up.sent == old(up.sent))
      && (ListPageValid(p) && OwnerOf(user).None? ==> r == Err(NotAuthenticated) && up.sent == old(up.sent))
      && (ListPageValid(p) && OwnerOf(user).Some? ==>
            var c := ListCall(up.reply, old(up.sent), s, OwnerOf(user).value, token, p.limit, p.offset, p.order);
            r == ListAnswer(c.0) && up.sent == old(up.sent) + c.1)
  {
    var p := ListPage(limit, offset, order);
    if !ListPageValid(p) {
      return Err(ParamsInvalid);
    }
    var owner := OwnerOf(user);
    if owner.None? {
      return Err(NotAuthenticated);
    }
    var o := ListThreadsForOwner(up, s, owner.value, token, p.limit, p.offset, p.order);
    r := ListAnswer(o);
  }

  /** `DELETE /threads/{thread_id}`. */
  method DeleteThread(up: Upstream, s: Config.Settings, user: Json, token: string, threadId: string)
    returns (r: Result<Json, Fault>)
    modifies up
    ensures !ThreadIdValid(threadId) ==> r == Err(ParamsInvalid) && up.sent == old(up.sent)
    ensures ThreadIdValid(threadId) && OwnerOf(user).None? ==> r == Err(NotAuthenticated) && up.sent == old(up.sent)
    ensures ThreadIdValid(threadId) && OwnerOf(user).Some? ==>
      var c := DeleteCall(up.reply, old(up.sent), s, OwnerOf(user).value, threadId, token);
      r == DeleteAnswer(c.0) && up.sent == old(up.sent) + c.1
  {
    if !ThreadIdValid(threadId) {
      return Err(ParamsInvalid);
    }
    var owner := OwnerOf(user);
    if owner.None? {
      return Err(NotAuthenticated);
    }
    var o := DeleteThreadById(up, s, owner.value, threadId, token);
    r := DeleteAnswer(o);
  }

  /** `GET /threads/{thread_id}`. */
  method GetThreadById(up: Upstream, s: Config.Settings, user: Json, token: string, threadId: string)
    returns (r: Result<Json, Fault>)
    modifies up
    ensures !ThreadIdValid(threadId) ==> r == Err(ParamsInvalid) && up.sent == old(up.sent)
    ensures ThreadIdValid(threadId) && OwnerOf(user).None? ==> r == Err(NotAuthenticated) && up.sent == old(up.sent)
    ensures ThreadIdValid(threadId) && OwnerOf(user).Some? ==>
      var c := DetailCall(up.reply, old(up.sent), s, OwnerOf(user).value, threadId, token);
      r == DetailAnswer(c.0) && up.sent == old(up.sent) + c.1
  {
    if !ThreadIdValid(threadId) {
      return Err(ParamsInvalid);
    }
    var owner := OwnerOf(user);
    if owner.None? {
      return Err(NotAuthenticated);
    }
    var o := GetThreadDetail(up, s, owner.value, threadId, token);
    r := DetailAnswer(o);
  }

  /** The detail endpoint answers 404 exactly when the select found no row: a detail built
      from a row is never empty. */
  lemma DetailNotFoundWhenNoRow(rows: Json)
    requires ThreadRepository.Detail(rows).Ok?
    ensures DetailAnswer(ThreadRepository.Detail(rows)) == Err(NotFound) <==> !PyTruthy(rows)
    ensures PyTruthy(rows) ==> DetailAnswer(ThreadRepository.Detail(rows)) == ThreadRepository.Detail(rows)
  {
    DetailShape(rows);
  }

  /** `GET /threads/{thread_id}/messages`. */
  method GetThreadMessages(up: Upstream, s: Config.Settings, user: Json, token: string, threadId: string,
                           limit: Option<int>, offset: Option<int>, order: Option<string>)
    returns (r: Result<Json, Fault>)
    modifies up
    ensures var p := MessagesPage(limit, offset, order);
      && (!ThreadIdValid(threadId) || !MessagesPageValid(p) ==> r == Err(ParamsInvalid) && up.sent == old(up.sent))
      && (ThreadIdValid(threadId) && MessagesPageValid(p) && OwnerOf(user).None? ==>
            r == Err(Unauthorized) && up.sent == old(up.sent))
      && (ThreadIdValid(threadId) && MessagesPageValid(p) && OwnerOf(user).Some? ==>
            var c := MessagesCall(up.reply, old(up.sent), s, OwnerOf(user).value, threadId, token,
                                  p.limit, p.offset, p.order);
            r == MessagesAnswer(c.0) && up.sent == old(up.sent) + c.1)
  {
    var p := MessagesPage(limit, offset, order);
    if !ThreadIdValid(threadId) || !MessagesPageValid(p) {
      return Err(ParamsInvalid);
    }
    var owner := OwnerOf(user);
    if owner.None? {
      return Err(Unauthorized);
    }
    var o := ListThreadMessages(up, s, owner.value, threadId, token, p.limit, p.offset, p.order);
    r := MessagesAnswer(o);
  }

  /** `m.content.strip()` is empty. */
  predicate BlankContent(m: ThreadSchema.MessageIn) {
    Strip(m.content) == ""
  }

  /** `POST /threads/{thread_id}/messages`: a message whose content is blank is refused before
      anything is sent. */
  method AddMessages(up: Upstream, s: Config.Settings, user: Json, token: string, threadId: string,
                     msgs: seq<ThreadSchema.MessageIn>)
    returns (r: Result<Json, Fault>)
    modifies up
    ensures !ThreadIdValid(threadId) ==> r == Err(ParamsInvalid) && up.sent == old(up.sent)
    ensures ThreadIdValid(threadId) && OwnerOf(user).None? ==> r == Err(Unauthorized) && up.sent == old(up.sent)
    ensures ThreadIdValid(threadId) && OwnerOf(user).Some? && (exists k :: 0 <= k < |msgs| && BlankContent(msgs[k])) ==>
      r == Err(EmptyContent) && up.sent == old(up.sent)
    ensures ThreadIdValid(threadId) && OwnerOf(user).Some? && (forall k :: 0 <= k < |msgs| ==> !BlankContent(msgs[k])) ==>
      var c := AddCall(up.reply, old(up.sent), s, OwnerOf(user).value, threadId, Drafts(msgs), token);
      r == AddAnswer(threadId, c.0) && up.sent == old(up.sent) + c.1
  {
    if !ThreadIdValid(threadId) {
      return Err(ParamsInvalid);
    }
    var owner := OwnerOf(user);
    if owner.None? {
      return Err(Unauthorized);
    }
    var i := 0;
    while i < |msgs|
      invariant 0 <= i <= |msgs|
      invariant forall k :: 0 <= k < i ==> !BlankContent(msgs[k])
    {
      if Strip(msgs[i].content) == "" {
        return Err(EmptyContent);
      }
      i := i + 1;
    }
    var o := AddMessagesToThread(up, s, owner.value, threadId, Drafts(msgs), token);
    r := AddAnswer(threadId, o);
  }

  /** Once the route's own check passed, the repository's check of the same contents passes
      too, so its ValueError never reaches the 422 branch from this route. */
  lemma AddCheckSuffices(threadId: string, msgs: seq<ThreadSchema.MessageIn>)
    requires forall k :: 0 <= k < |msgs| ==> !BlankContent(msgs[k])
    ensures Traverse.Prefix(AddedRow(threadId), Drafts(msgs), |msgs|).Ok?
  {
    var ds := Drafts(msgs);
    assert forall k :: 0 <= k < |ds| ==> !Blank(ds[k]) by {
      forall k | 0 <= k < |ds| ensures !Blank(ds[k]) {
        assert ds[k].content == Some(msgs[k].content);
      }
    }
    AddedRowsShape(threadId, ds);
  }

  /** An answer that succeeds reports one added row per message sent. */
  lemma AddedCountIsMessages(service: Service, sent: seq<Request>, s: Config.Settings, ownerId: string,
                             threadId: string, msgs: seq<ThreadSchema.MessageIn>, token: string)
    ensures var a := AddAnswer(threadId, AddCall(service, sent, s, ownerId, threadId, Drafts(msgs), token).0);
      a.Ok? ==> a.value.fields["added_count"] == Num(|msgs|)
  {
    AddedRowsShape(threadId, Drafts(msgs));
  }
}
