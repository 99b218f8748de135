/** The supabase-client repository of app/repository.py, which repository.py repeats line for
    line (its `create_thread_and_messages` and `get_thread` are aliases of the first two
    methods here): inserting a thread and its messages, fetching a thread with `select=*`
    and a second query for its messages, and listing an owner's threads. */
module AppRepository {

  import opened Outcome
  import opened JsonValue
  import opened Seqs
  import opened Store
  import MainIngest
  import QueryRepository

  type NormMessage = MainIngest.NormMessage
  type Payload = MainIngest.Payload

  /** The rows of the loop at app/repository.py:28-35: thread id, role and content only, so
      `created_at` and `index` are left to the column defaults. */
  function PlainRows(tid: string, msgs: seq<NormMessage>): (r: seq<MessageRow>)
    ensures |r| == |msgs|
    ensures forall k :: 0 <= k < |msgs| ==> r[k] == MessageRow(tid, msgs[k].role, msgs[k].content, None, None)
  {
    seq(|msgs|, k requires 0 <= k < |msgs| => MessageRow(tid, msgs[k].role, msgs[k].content, None, None))
  }

  method BuildRows(tid: string, msgs: seq<NormMessage>) returns (rows: seq<MessageRow>)
    ensures rows == PlainRows(tid, msgs)
  {
    rows := [];
    var i := 0;
    while i < |msgs|
      invariant 0 <= i <= |msgs|
      invariant rows == PlainRows(tid, msgs[..i])
    {
      rows := rows + [MessageRow(tid, msgs[i].role, msgs[i].content, None, None)];
      i := i + 1;
    }
    assert msgs[..|msgs|] == msgs;
  }

  /** `insert_thread_and_messages`: the thread first, then (when there are any) all messages
      in one insert. The two inserts are not atomic: a failed message insert leaves the
      thread stored. */
  method InsertThreadAndMessages(db: Database, payload: Payload, threadId: string, now: string)
    returns (r: Result<string, Fault>)
    modifies db
    ensures db.failing == old(db.failing)
    ensures var row := ThreadRow(threadId, payload.title, payload.ownerId, now, map[]);
      var rows := PlainRows(threadId, payload.messages);
      && (Threads in db.failing ==>
            r == Err(RuntimeError("threads insert error: " + db.failing[Threads].message))
            && db.threads == old(db.threads) && db.messages == old(db.messages))
      && (Threads !in db.failing ==> db.threads == old(db.threads) + [row])
      && (Threads !in db.failing && (rows == [] || Messages !in db.failing) ==>
            r == Ok(threadId) && db.messages == old(db.messages) + rows)
      && (Threads !in db.failing && rows != [] && Messages in db.failing ==>
            r == Err(RuntimeError("messages insert error: " + db.failing[Messages].message))
            && db.messages == old(db.messages))
  {
    var ins := db.InsertThreads([ThreadRow(threadId, payload.title, payload.ownerId, now, map[])]);
    if ins.Err? {
      return Err(RuntimeError("threads insert error: " + ins.error.message));
    }
    var msgs := BuildRows(threadId, payload.messages);
    if msgs != [] {
      var ins2 := db.InsertMessages(msgs);
      if ins2.Err? {
        return Err(RuntimeError("messages insert error: " + ins2.error.message));
      }
    }
    return Ok(threadId);
  }

  /** The dict fetch_thread builds from the thread row and the message rows. */
  function StarShape(t: Json, msgs: seq<Json>): Result<Json, Fault> {
    var id :- Subscript(t, "id");
    var title :- DictGet(t, "title");
    var summary :- DictGet(t, "summary");
    var tags :- DictGet(t, "tags");
    var sourceUrl :- DictGet(t, "source_url");
    var model :- DictGet(t, "model");
    var createdAt :- DictGet(t, "created_at");
    Ok(Obj(map["id" := id, "title" := title, "summary" := summary, "tags" := PyOr(tags, Arr([])),
               "source_url" := sourceUrl, "model" := model, "created_at" := Str(PyStr(createdAt)),
               "messages" := PyOr(Arr(msgs), Arr([]))]))
  }

  /** `fetch_thread`: the thread by `select=*` and `.single()`, then its messages oldest first. */
  method FetchThread(db: Database, tid: string) returns (r: Result<Json, Fault>)
    ensures Threads in db.failing ==>
      r == Err(RuntimeError("threads select error: " + db.failing[Threads].message))
    ensures Threads !in db.failing ==>
      var ts := Matching(db.threads, ThreadKey(Some(tid), None));
      && (|ts| != 1 ==> r == Err(RuntimeError("threads select error: " + QueryRepository.SingleFailure)))
      && (|ts| == 1 ==>
            var row := Obj(ThreadJson(ts[0], [Col("*")], map[], db.messages));
            && (!PyTruthy(row) ==> r == Err(RuntimeError("thread not found")))
            && (PyTruthy(row) && Messages in db.failing ==>
                  r == Err(RuntimeError("messages select error: " + db.failing[Messages].message)))
            && (PyTruthy(row) && Messages !in db.failing ==>
                  r == StarShape(row, MessagesJson(MessagesOf(db.messages, tid), QueryRepository.MessageFields))))
  {
    var rt := db.SelectThreads([Col("*")], ThreadKey(Some(tid), None), Asc, None, map[]);
    var one := Single(rt);
    if one.Err? {
      return Err(RuntimeError("threads select error: " + one.error.message));
    }
    if !PyTruthy(one.value) {
      return Err(RuntimeError("thread not found"));
    }
    var rm := db.SelectMessages(QueryRepository.MessageFields, tid, ByCreatedAt, Asc, None);
    if rm.Err? {
      return Err(RuntimeError("messages select error: " + rm.error.message));
    }
    r := StarShape(one.value, rm.value);
  }

  /** For a stored thread, fetch_thread here answers exactly what the corrected fetch_thread of
      app/repository/query.py answers: all its columns, `tags` defaulting to an empty list and
      its messages oldest first. */
  lemma StarFetchAgrees(t: ThreadRow, ms: seq<MessageRow>)
    ensures var row := Obj(ThreadJson(t, [Col("*")], map[], ms));
      && PyTruthy(row)
      && StarShape(row, MessagesJson(MessagesOf(ms, t.id), QueryRepository.MessageFields))
           == Ok(QueryRepository.FetchedThread(t, ms))
  {
    var o := ThreadJson(t, [Col("*")], map[], ms);
    assert o == StarFields(t);
    StarColumnsOf(t);
    var own := MessagesOf(ms, t.id);
    var js := MessagesJson(own, QueryRepository.MessageFields);
    var outs := seq(|own|, k requires 0 <= k < |own| => QueryRepository.MessageOut(own[k]));
    forall k | 0 <= k < |own| ensures js[k] == outs[k] {
      QueryRepository.ProjectedMessageOut(own[k]);
    }
    assert js == outs;
    assert PyOr(Arr(js), Arr([])) == Arr(js);
    StarShapeOf(o, js);
  }

  /** `select=*` gives every column of the row. */
  lemma StarColumnsOf(t: ThreadRow)
    ensures var o := StarFields(t);
      && "id" in o && o["id"] == Str(t.id) && "title" in o && o["title"] == Str(t.title)
      && "summary" in o && o["summary"] == ThreadColumn(t, "summary")
      && "tags" in o && o["tags"] == ThreadColumn(t, "tags")
      && "source_url" in o && o["source_url"] == ThreadColumn(t, "source_url")
      && "model" in o && o["model"] == ThreadColumn(t, "model")
      && "created_at" in o && o["created_at"] == Str(t.createdAt)
  {
    assert "id" in ThreadColumns && "title" in ThreadColumns && "summary" in ThreadColumns;
    assert "tags" in ThreadColumns && "source_url" in ThreadColumns && "model" in ThreadColumns;
    assert "created_at" in ThreadColumns;
  }

  /** The shaping of a row that holds the seven columns, the last a string. */
  lemma StarShapeOf(o: map<string, Json>, msgs: seq<Json>)
    requires "id" in o && "title" in o && "summary" in o && "tags" in o && "source_url" in o
    requires "model" in o && "created_at" in o && o["created_at"].Str?
    ensures StarShape(Obj(o), msgs) == Ok(Obj(map["id" := o["id"], "title" := o["title"], "summary" := o["summary"],
      "tags" := PyOr(o["tags"], Arr([])), "source_url" := o["source_url"], "model" := o["model"],
      "created_at" := o["created_at"], "messages" := PyOr(Arr(msgs), Arr([]))]))
  {
  }

  /** The round trip: after inserting a thread with an id that is not yet used, fetching that
      id finds exactly the new thread, and its messages are the payload's messages in order,
      each with its role and content and no `created_at` of its own. */
  lemma InsertThenFetch(ts: seq<ThreadRow>, ms: seq<MessageRow>, payload: Payload, id: string, now: string)
    requires forall k :: 0 <= k < |ts| ==> ts[k].id != id
    requires forall k :: 0 <= k < |ms| ==> ms[k].threadId != id
    ensures var row := ThreadRow(id, payload.title, payload.ownerId, now, map[]);
      var rows := PlainRows(id, payload.messages);
      && Matching(ts + [row], ThreadKey(Some(id), None)) == [row]
      && var out := QueryRepository.FetchedThread(row, ms + rows);
      && out.fields["id"] == Str(id) && out.fields["title"] == Str(payload.title)
      && out.fields["tags"] == Arr([]) && out.fields["created_at"] == Str(now)
      && var got := out.fields["messages"].items;
      && |got| == |payload.messages|
      && forall k :: 0 <= k < |got| ==>
           got[k] == Obj(map["role" := Str(payload.messages[k].role),
                             "content" := Str(payload.messages[k].content), "created_at" := Null])
  {
    var row := ThreadRow(id, payload.title, payload.ownerId, now, map[]);
    var rows := PlainRows(id, payload.messages);
    FreshThreadFound(ts, row);
    FreshMessagesFound(ms, rows, id);
    var own := MessagesOf(ms + rows, id);
    var out := QueryRepository.FetchedThread(row, ms + rows);
    assert out.fields["messages"] == Arr(seq(|own|, k requires 0 <= k < |own| => QueryRepository.MessageOut(own[k])));
    assert ThreadColumn(row, "tags") == Null;
  }

  lemma FreshThreadFound(ts: seq<ThreadRow>, row: ThreadRow)
    requires forall k :: 0 <= k < |ts| ==> ts[k].id != row.id
    ensures Matching(ts + [row], ThreadKey(Some(row.id), None)) == [row]
  {
    var key := ThreadKey(Some(row.id), None);
    FilterAppend(ts, [row], Keyed(key));
    FilterNone(ts, Keyed(key));
    FilterAll([row], Keyed(key));
  }

  lemma FreshMessagesFound(ms: seq<MessageRow>, rows: seq<MessageRow>, id: string)
    requires forall k :: 0 <= k < |ms| ==> ms[k].threadId != id
    requires forall k :: 0 <= k < |rows| ==> rows[k].threadId == id
    ensures MessagesOf(ms + rows, id) == rows
  {
    FilterAppend(ms, rows, InThread(id));
    FilterNone(ms, InThread(id));
    FilterAll(rows, InThread(id));
  }

  /** supabase-py's `.range(offset, offset + max(0, limit) - 1)`. */
  function ListWindow(limit: int, offset: int): (w: Window)
    ensures w.offset == offset && w.limit == (if limit > 0 then limit else 0)
  {
    Range(offset, offset + (if limit > 0 then limit else 0) - 1)
  }

  /** `list_threads`: the owner's thread rows newest first, in the window. */
  method ListThreads(db: Database, ownerId: string, limit: int, offset: int)
    returns (r: Result<seq<Json>, Fault>)
    ensures Threads in db.failing ==>
      r == Err(RuntimeError("threads list error: " + db.failing[Threads].message))
    ensures Threads !in db.failing ==>
      var w := Windowed(Ordered(Matching(db.threads, ThreadKey(None, Some(ownerId))), Desc),
                        Some(ListWindow(limit, offset)));
      r == (if w.Err? then Err(RuntimeError("threads list error: " + w.error.message))
            else Ok(ThreadsJson(w.value, QueryRepository.ListedColumns, map[], db.messages)))
  {
    var sel := db.SelectThreads(QueryRepository.ListedColumns, ThreadKey(None, Some(ownerId)), Desc,
                                Some(ListWindow(limit, offset)), map[]);
    if sel.Err? {
      return Err(RuntimeError("threads list error: " + sel.error.message));
    }
    return Ok(sel.value);
  }

  /** The listing window: a limit of zero or less asks for an empty range; otherwise at most
      `limit` threads come back, all the owner's, newest first from `offset`. */
  lemma ListPage(ts: seq<ThreadRow>, ownerId: string, limit: int, offset: int)
    requires offset >= 0
    ensures var w := Windowed(Ordered(Matching(ts, ThreadKey(None, Some(ownerId))), Desc),
                              Some(ListWindow(limit, offset)));
      && w.Ok?
      && (limit <= 0 ==> w.value == [])
      && |w.value| <= (if limit > 0 then limit else 0)
      && forall k :: 0 <= k < |w.value| ==> w.value[k] in ts && w.value[k].ownerId == ownerId
  {
    var lim := if limit > 0 then limit else 0;
    PageRows(ts, Keyed(ThreadKey(None, Some(ownerId))), Desc, offset, lim);
    WindowShape(Ordered(Matching(ts, ThreadKey(None, Some(ownerId))), Desc), offset, lim);
  }
}
