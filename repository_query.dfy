/** The supabase-client repository of app/repository/query.py: inserting a thread, appending
    numbered messages after the thread's highest index, fetching one thread with its messages,
    and listing an owner's threads. Identifiers and timestamps (`uuid4`, `datetime.now`) are
    parameters. A store error is taken to come back on the response, where the `error` checks
    turn it into a RuntimeError. */
module QueryRepository {

  import opened Outcome
  import opened Text
  import opened JsonValue
  import opened Seqs
  import opened Traverse
  import opened Store
  import MainIngest

  type NormMessage = MainIngest.NormMessage
  type Payload = MainIngest.Payload

  // insert_thread

  /** `insert_thread`: one `threads` row with the payload's title and owner and the current
      time as `created_at`; the new id is returned. */
  method InsertThread(db: Database, payload: Payload, threadId: string, now: string)
    returns (r: Result<string, Fault>)
    modifies db
    ensures db.messages == old(db.messages) && db.failing == old(db.failing)
    ensures Threads in db.failing ==>
      r == Err(RuntimeError("Failed to insert thread: " + db.failing[Threads].message))
      && db.threads == old(db.threads)
    ensures Threads !in db.failing ==>
      r == Ok(threadId)
      && db.threads == old(db.threads) + [ThreadRow(threadId, payload.title, payload.ownerId, now, map[])]
  {
    var ins := db.InsertThreads([ThreadRow(threadId, payload.title, payload.ownerId, now, map[])]);
    if ins.Err? {
      return Err(RuntimeError("Failed to insert thread: " + ins.error.message));
    }
    return Ok(threadId);
  }

  // insert_messages

  /** What `r.data[0]["index"] if r.data else -1` reads: the `index` of the first row of the
      thread's messages in descending index order, or -1 when there is none. A failed query has
      no data, so it also reads -1. */
  function LastIndex(ms: seq<MessageRow>, tid: string, queryFails: bool): Json {
    var top := OrderMessages(MessagesOf(ms, tid), ByIndex, Desc);
    if queryFails || top == [] then Num(-1) else MessageColumn(top[0], "index")
  }

  /** The rows the loop at app/repository/query.py:39-48 builds: in order, numbered from
      `last + 1`, all with the same `created_at`. */
  function NumberedRows(tid: string, msgs: seq<NormMessage>, last: int, now: string): (r: seq<MessageRow>)
    ensures |r| == |msgs|
    ensures forall k :: 0 <= k < |msgs| ==>
      r[k] == MessageRow(tid, msgs[k].role, msgs[k].content, Some(now), Some(last + k + 1))
  {
    seq(|msgs|, k requires 0 <= k < |msgs| =>
      MessageRow(tid, msgs[k].role, msgs[k].content, Some(now), Some(last + k + 1)))
  }

  /** The `enumerate(messages, start=1)` loop: `last_index + i` is evaluated in the first
      iteration, so a last index that is not a number fails only when there are messages. */
  method NumberMessages(tid: string, msgs: seq<NormMessage>, last: Json, now: string)
    returns (r: Result<seq<MessageRow>, Fault>)
    ensures msgs == [] ==> r == Ok([])
    ensures msgs != [] && IntOperand(last).Err? ==> r == Err(IntOperand(last).error)
    ensures msgs != [] && IntOperand(last).Ok? ==> r == Ok(NumberedRows(tid, msgs, IntOperand(last).value, now))
  {
    var rows: seq<MessageRow> := [];
    var i := 1;
    while i <= |msgs|
      invariant 1 <= i <= |msgs| + 1
      invariant i == 1 ==> rows == []
      invariant i > 1 ==> IntOperand(last).Ok? && rows == NumberedRows(tid, msgs[..i - 1], IntOperand(last).value, now)
    {
      var base := IntOperand(last);
      if base.Err? {
        return Err(base.error);
      }
      var idx := base.value + i;
      rows := rows + [MessageRow(tid, msgs[i - 1].role, msgs[i - 1].content, Some(now), Some(idx))];
      i := i + 1;
    }
    if msgs != [] {
      assert msgs[..|msgs|] == msgs;
    }
    return Ok(rows);
  }

  /** `insert_messages`: reads the thread's highest index, numbers the new messages after it and
      inserts them in one call (no call when there are none); returns the rows it built. */
  method InsertMessages(db: Database, tid: string, msgs: seq<NormMessage>, now: string)
    returns (r: Result<seq<MessageRow>, Fault>)
    modifies db
    ensures db.threads == old(db.threads) && db.failing == old(db.failing)
    ensures var last := LastIndex(old(db.messages), tid, Messages in db.failing);
      && (msgs == [] ==> r == Ok([]) && db.messages == old(db.messages))
      && (msgs != [] && IntOperand(last).Err? ==>
            r == Err(IntOperand(last).error) && db.messages == old(db.messages))
      && (msgs != [] && IntOperand(last).Ok? && Messages in db.failing ==>
            r == Err(RuntimeError("Failed to insert messages: " + db.failing[Messages].message))
            && db.messages == old(db.messages))
      && (msgs != [] && IntOperand(last).Ok? && Messages !in db.failing ==>
            var rows := NumberedRows(tid, msgs, IntOperand(last).value, now);
            r == Ok(rows) && db.messages == old(db.messages) + rows)
  {
    var top := db.SelectMessages(["index"], tid, ByIndex, Desc, Some(Window(0, 1)));
    var last: Json := if top.Ok? && top.value != [] then Field(top.value[0], "index") else Num(-1);
    assert last == LastIndex(db.messages, tid, Messages in db.failing);
    var rows := NumberMessages(tid, msgs, last, now);
    if rows.Err? {
      return Err(rows.error);
    }
    if rows.value != [] {
      var ins := db.InsertMessages(rows.value);
      if ins.Err? {
        return Err(RuntimeError("Failed to insert messages: " + ins.error.message));
      }
    }
    return Ok(rows.value);
  }

  /** While a thread's indices are 0, 1, 2, ..., the next insert reads the last of them and
      numbers the new messages after it, so the indices stay contiguous; other threads'
      messages are untouched. */
  lemma InsertKeepsContiguous(ms: seq<MessageRow>, tid: string, msgs: seq<NormMessage>, now: string, other: string)
    requires IndexContiguous(ms, tid)
    ensures var n := |MessagesOf(ms, tid)|;
      && IntOperand(LastIndex(ms, tid, false)) == Ok(n - 1)
      && IndexContiguous(ms + NumberedRows(tid, msgs, n - 1, now), tid)
      && |MessagesOf(ms + NumberedRows(tid, msgs, n - 1, now), tid)| == n + |msgs|
      && (other != tid ==> MessagesOf(ms + NumberedRows(tid, msgs, n - 1, now), other) == MessagesOf(ms, other))
  {
    var own := MessagesOf(ms, tid);
    var n := |own|;
    ContiguousLast(ms, tid);
    var rows := NumberedRows(tid, msgs, n - 1, now);
    MessagesOfAppend(ms, rows, tid, other);
    AppendNumbered(own, rows);
  }

  lemma ContiguousLast(ms: seq<MessageRow>, tid: string)
    requires IndexContiguous(ms, tid)
    ensures IntOperand(LastIndex(ms, tid, false)) == Ok(|MessagesOf(ms, tid)| - 1)
  {
    var own := MessagesOf(ms, tid);
    ContiguousTop(ms, tid);
    var top := OrderMessages(own, ByIndex, Desc);
    assert top == Reverse(own);
    if own != [] {
      assert top[0] == own[|own| - 1];
      assert top[0].index == Some(|own| - 1);
      assert MessageColumn(top[0], "index") == Num(|own| - 1);
    }
  }

  lemma AppendNumbered(own: seq<MessageRow>, rows: seq<MessageRow>)
    requires forall k :: 0 <= k < |own| ==> own[k].index == Some(k)
    requires forall k :: 0 <= k < |rows| ==> rows[k].index == Some(|own| + k)
    ensures forall k :: 0 <= k < |own + rows| ==> (own + rows)[k].index == Some(k)
  {
    forall k | 0 <= k < |own + rows| ensures (own + rows)[k].index == Some(k) {
      if k >= |own| {
        assert (own + rows)[k] == rows[k - |own|];
      }
    }
  }

  /** A message stored without an index (as app/repository.py and add_messages_to_thread do)
      sorts first in descending index order, so every later insert_messages on that thread fails
      with a TypeError. */
  lemma NullIndexBlocksInsert(ms: seq<MessageRow>, tid: string, j: nat)
    requires j < |MessagesOf(ms, tid)| && MessagesOf(ms, tid)[j].index.None?
    ensures LastIndex(ms, tid, false) == Null
    ensures IntOperand(LastIndex(ms, tid, false)).Err?
  {
    var own := MessagesOf(ms, tid);
    SortLastNull(own, j);
    var sorted := SortByIndex(own);
    var top := OrderMessages(own, ByIndex, Desc);
    assert top == Reverse(sorted);
    assert top[0] == sorted[|own| - 1];
    assert MessageColumn(top[0], "index") == Null;
  }

  /** Sorting by index with nulls last: when any row has no index, the last row has none. */
  lemma {:induction false} SortLastNull(ms: seq<MessageRow>, j: nat)
    requires j < |ms| && ms[j].index.None?
    ensures SortByIndex(ms)[|ms| - 1].index.None?
    decreases |ms|
  {
    var init := ms[..|ms| - 1];
    var x := ms[|ms| - 1];
    if j < |ms| - 1 {
      assert init[j] == ms[j];
      SortLastNull(init, j);
      InsertKeepsNullLast(SortByIndex(init), x);
    }
  }

  lemma {:induction false} InsertKeepsNullLast(sorted: seq<MessageRow>, x: MessageRow)
    requires sorted != [] && sorted[|sorted| - 1].index.None?
    ensures InsertByIndex(sorted, x)[|sorted|].index.None?
  {
  }

  // fetch_thread

  /** The columns read by fetch_thread and list_threads. */
  const ListedColumns: seq<SelectItem> :=
    [Col("id"), Col("title"), Col("summary"), Col("tags"), Col("source_url"), Col("model"), Col("created_at")]

  const MessageFields: seq<string> := ["role", "content", "created_at"]

  /** The select of fetch_thread as intended: the seven columns and the embedded messages. */
  const FetchItems: seq<SelectItem> := ListedColumns + [Embed("messages", "messages", MessageFields)]

  /** The select of fetch_thread as written: the two adjacent literals at
      app/repository/query.py:65-66 concatenate with no comma between `created_at` and
      `messages(...)`, so the last item embeds a relation named `created_atmessages` and the
      `created_at` column is not selected. */
  const FetchItemsAsWritten: seq<SelectItem> :=
    ListedColumns[..6] + [Embed(GluedName, GluedName, MessageFields)]

  /** The name PostgREST reads before the parenthesis in the glued item. */
  const GluedName: string := "created_at" + "messages"


  /** A select item as it is written in a `select=` string. */
  function RenderItem(item: SelectItem): string {
    match item
    case Col(n) => n
    case Embed(a, rel, cols) => (if a == rel then "" else a + ":") + rel + "(" + Join(", ", cols) + ")"
  }

  function Rendered(items: seq<SelectItem>): (r: seq<string>)
    ensures |r| == |items| && forall k :: 0 <= k < |items| ==> r[k] == RenderItem(items[k])
  {
    seq(|items|, k requires 0 <= k < |items| => RenderItem(items[k]))
  }

  function RenderItems(items: seq<SelectItem>): string {
    Join(", ", Rendered(items))
  }

  lemma {:induction false} JoinSnoc(sep: string, xs: seq<string>, y: string)
    requires xs != []
    ensures Join(sep, xs + [y]) == Join(sep, xs) + sep + y
    decreases |xs|
  {
    if |xs| > 1 {
      assert (xs + [y])[1..] == xs[1..] + [y];
      JoinSnoc(sep, xs[1..], y);
    }
  }

  /** The source's adjacent literals glue the embedded messages onto the `created_at`
      column: the as-written list renders as the columns immediately followed by the embed,
      where the intended list separates them. The store refuses the glued item and accepts the
      intended list. */
  lemma GluedSelect()
    ensures RenderItems(FetchItemsAsWritten) ==
      RenderItems(ListedColumns) + RenderItem(Embed("messages", "messages", MessageFields))
    ensures RenderItems(FetchItems) ==
      RenderItems(ListedColumns) + ", " + RenderItem(Embed("messages", "messages", MessageFields))
    ensures !ValidItems(FetchItemsAsWritten) && ValidItems(FetchItems)
  {
    GluedRendering();
    IntendedRendering();
    GluedRejected();
  }

  /** Rendering one more item adds it after a separator. */
  lemma RenderSnoc(items: seq<SelectItem>, x: SelectItem)
    requires items != []
    ensures RenderItems(items + [x]) == RenderItems(items) + ", " + RenderItem(x)
  {
    assert Rendered(items + [x]) == Rendered(items) + [RenderItem(x)];
    JoinSnoc(", ", Rendered(items), RenderItem(x));
  }

  /** What follows an embed's name: its columns in parentheses. */
  function EmbedTail(cols: seq<string>): string {
    "(" + Join(", ", cols) + ")"
  }

  lemma EmbedRendering(a: string, cols: seq<string>)
    ensures RenderItem(Embed(a, a, cols)) == a + EmbedTail(cols)
  {
    assert "" + a == a;
  }

  /** A column glued to an embed's name renders as the column immediately followed by the embed. */
  lemma GluedShape(front: seq<SelectItem>, col: string, rel: string, cols: seq<string>)
    requires front != []
    ensures RenderItems(front + [Embed(col + rel, col + rel, cols)])
      == RenderItems(front + [Col(col)]) + RenderItem(Embed(rel, rel, cols))
  {
    RenderSnoc(front, Embed(col + rel, col + rel, cols));
    RenderSnoc(front, Col(col));
    EmbedRendering(col + rel, cols);
    EmbedRendering(rel, cols);
    Regroup(RenderItems(front), ", ", col, rel, EmbedTail(cols));
  }

  lemma GluedRendering()
    ensures RenderItems(FetchItemsAsWritten) ==
      RenderItems(ListedColumns) + RenderItem(Embed("messages", "messages", MessageFields))
  {
    assert ListedColumns == ListedColumns[..6] + [Col("created_at")];
    GluedShape(ListedColumns[..6], "created_at", "messages", MessageFields);
  }

  lemma Regroup(j: string, sep: string, x: string, y: string, tail: string)
    ensures j + sep + (x + y + tail) == (j + sep + x) + (y + tail)
  {
  }

  lemma IntendedRendering()
    ensures RenderItems(FetchItems) ==
      RenderItems(ListedColumns) + ", " + RenderItem(Embed("messages", "messages", MessageFields))
  {
    RenderSnoc(ListedColumns, Embed("messages", "messages", MessageFields));
  }

  lemma GluedRejected()
    ensures !ValidItems(FetchItemsAsWritten) && ValidItems(FetchItems)
  {
    assert |GluedName| != |"messages"|;
    assert !ValidItem(FetchItemsAsWritten[6]);
    assert forall k :: 0 <= k < 7 ==> FetchItems[k] == ListedColumns[k];
  }

  /** `{"role": m["role"], "content": m["content"], "created_at": m.get("created_at")}`. */
  function ShapeMessage(k: nat, m: Json): Result<Json, Fault> {
    var role :- Subscript(m, "role");
    var content :- Subscript(m, "content");
    var createdAt :- DictGet(m, "created_at");
    Ok(Obj(map["role" := role, "content" := content, "created_at" := createdAt]))
  }

  /** The dict fetch_thread builds from the fetched row, in the order the source reads it. */
  function ShapeThread(t: Json): Result<Json, Fault> {
    var createdAt :- DictGet(t, "created_at");
    var rawMsgs :- DictGet(t, "messages");
    var items :- PyIter(PyOr(rawMsgs, Arr([])));
    var messages :- Traverse.Prefix(ShapeMessage, items, |items|);
    var id :- Subscript(t, "id");
    var title :- Subscript(t, "title");
    var summary :- DictGet(t, "summary");
    var tags :- DictGet(t, "tags");
    var sourceUrl :- DictGet(t, "source_url");
    var model :- DictGet(t, "model");
    Ok(Obj(map["id" := id, "title" := title, "summary" := summary, "tags" := PyOr(tags, Arr([])),
               "source_url" := sourceUrl, "model" := model, "created_at" := createdAt,
               "messages" := Arr(messages)]))
  }

  /** What follows a successful `.single()`: None for an empty row, else the shaped dict. */
  function Fetched(t: Json): Result<Option<Json>, Fault> {
    if !PyTruthy(t) then Ok(None)
    else
      var shaped :- ShapeThread(t);
      Ok(Some(shaped))
  }

  const SingleFailure := "JSON object requested, multiple (or no) rows returned"

  /** fetch_thread's body for a given select list. */
  method FetchThreadSelecting(db: Database, tid: string, items: seq<SelectItem>)
    returns (r: Result<Option<Json>, Fault>)
    ensures Threads in db.failing ==>
      r == Err(RuntimeError("fetch_thread query error: " + db.failing[Threads].message))
    ensures Threads !in db.failing && !ValidItems(items) ==> r.Err? && r.error.RuntimeError?
    ensures Threads !in db.failing && ValidItems(items) ==>
      var ts := Matching(db.threads, ThreadKey(Some(tid), None));
      && (|ts| != 1 ==> r == Err(RuntimeError("fetch_thread query error: " + SingleFailure)))
      && (|ts| == 1 ==> r == Fetched(Obj(ThreadJson(ts[0], items, map[], db.messages))))
  {
    var rows := db.SelectThreads(items, ThreadKey(Some(tid), None), Asc, None, map[]);
    var one := Single(rows);
    if one.Err? {
      return Err(RuntimeError("fetch_thread query error: " + one.error.message));
    }
    r := Fetched(one.value);
  }

  /** fetch_thread as written: whatever the store holds, the glued select is refused and the
      call raises. */
  method FetchThreadAsWritten(db: Database, tid: string) returns (r: Result<Option<Json>, Fault>)
    ensures r.Err? && r.error.RuntimeError?
  {
    GluedSelect();
    r := FetchThreadSelecting(db, tid, FetchItemsAsWritten);
  }

  /** The message dict fetch_thread returns for a stored message. */
  function MessageOut(m: MessageRow): Json {
    Obj(map["role" := Str(m.role), "content" := Str(m.content), "created_at" := OptStr(m.createdAt)])
  }

  /** The dict fetch_thread returns for a stored thread: its columns, `tags` defaulting to an
      empty list, and all of its messages in `created_at` order. */
  function FetchedThread(t: ThreadRow, ms: seq<MessageRow>): Json {
    var own := MessagesOf(ms, t.id);
    Obj(map["id" := Str(t.id), "title" := Str(t.title), "summary" := ThreadColumn(t, "summary"),
            "tags" := PyOr(ThreadColumn(t, "tags"), Arr([])), "source_url" := ThreadColumn(t, "source_url"),
            "model" := ThreadColumn(t, "model"), "created_at" := Str(t.createdAt),
            "messages" := Arr(seq(|own|, k requires 0 <= k < |own| => MessageOut(own[k])))])
  }

  /** fetch_thread with the comma restored: the one thread with that id, shaped, with its
      messages; no thread (or several) is the store's `.single()` error. */
  method FetchThread(db: Database, tid: string) returns (r: Result<Option<Json>, Fault>)
    ensures Threads in db.failing ==>
      r == Err(RuntimeError("fetch_thread query error: " + db.failing[Threads].message))
    ensures Threads !in db.failing ==>
      var ts := Matching(db.threads, ThreadKey(Some(tid), None));
      && (|ts| != 1 ==> r == Err(RuntimeError("fetch_thread query error: " + SingleFailure)))
      && (|ts| == 1 ==> r == Ok(Some(FetchedThread(ts[0], db.messages))))
  {
    GluedSelect();
    r := FetchThreadSelecting(db, tid, FetchItems);
    var ts := Matching(db.threads, ThreadKey(Some(tid), None));
    if Threads !in db.failing && |ts| == 1 {
      FetchedRow(ts[0], db.messages);
    }
  }

  lemma ProjectedMessageOut(m: MessageRow)
    ensures ProjectMessage(m, MessageFields) == MessageOut(m)
  {
    var p := ProjectMessage(m, MessageFields);
    assert p.fields.Keys == MessageOut(m).fields.Keys;
  }

  lemma ShapedMessages(own: seq<MessageRow>)
    ensures var items := seq(|own|, k requires 0 <= k < |own| => ProjectMessage(own[k], MessageFields));
      Traverse.Prefix(ShapeMessage, items, |items|)
        == Ok(seq(|own|, k requires 0 <= k < |own| => MessageOut(own[k])))
  {
    var items := seq(|own|, k requires 0 <= k < |own| => ProjectMessage(own[k], MessageFields));
    var outs := seq(|own|, k requires 0 <= k < |own| => MessageOut(own[k]));
    forall k | 0 <= k < |own| ensures ShapeMessage(k, items[k]) == Ok(outs[k]) {
      ProjectedMessageOut(own[k]);
    }
    PrefixOk(ShapeMessage, items, |items|);
    var v := Traverse.Prefix(ShapeMessage, items, |items|).value;
    assert v == outs;
  }

  /** The row the store answers for a thread under the intended select is shaped into
      FetchedThread. */
  lemma FetchedRow(t: ThreadRow, ms: seq<MessageRow>)
    ensures Fetched(Obj(ThreadJson(t, FetchItems, map[], ms))) == Ok(Some(FetchedThread(t, ms)))
  {
    var own := MessagesOf(ms, t.id);
    var items := seq(|own|, k requires 0 <= k < |own| => ProjectMessage(own[k], MessageFields));
    var outs := seq(|own|, k requires 0 <= k < |own| => MessageOut(own[k]));
    FetchRowJson(t, ms);
    ListedColumnsOf(t, ms, ListedColumns);
    var row := ThreadJson(t, FetchItems, map[], ms);
    ShapedMessages(own);
    ShapeThreadOf(row, items, outs);
    assert PyTruthy(Obj(row));
  }

  /** ShapeThread on a row that holds an id, a title and a list of message rows. */
  lemma ShapeThreadOf(o: map<string, Json>, items: seq<Json>, outs: seq<Json>)
    requires "id" in o && "title" in o && "messages" in o && o["messages"] == Arr(items)
    requires Traverse.Prefix(ShapeMessage, items, |items|) == Ok(outs)
    ensures ShapeThread(Obj(o)) == Ok(Obj(map["id" := o["id"], "title" := o["title"],
      "summary" := Field(Obj(o), "summary"), "tags" := PyOr(Field(Obj(o), "tags"), Arr([])),
      "source_url" := Field(Obj(o), "source_url"), "model" := Field(Obj(o), "model"),
      "created_at" := Field(Obj(o), "created_at"), "messages" := Arr(outs)]))
  {
    assert PyOr(Arr(items), Arr([])) == Arr(items);
  }

  lemma FetchRowJson(t: ThreadRow, ms: seq<MessageRow>)
    ensures var own := MessagesOf(ms, t.id);
      ThreadJson(t, FetchItems, map[], ms) == ThreadJson(t, ListedColumns, map[], ms)[
        "messages" := Arr(seq(|own|, k requires 0 <= k < |own| => ProjectMessage(own[k], MessageFields)))]
  {
    assert FetchItems[..|FetchItems| - 1] == ListedColumns;
  }

  // list_threads

  /** The dict list_threads builds from one listed row. */
  function ListEntry(k: nat, t: Json): Result<Json, Fault> {
    var id :- Subscript(t, "id");
    var title :- Subscript(t, "title");
    var summary :- DictGet(t, "summary");
    var tags :- DictGet(t, "tags");
    var sourceUrl :- DictGet(t, "source_url");
    var model :- DictGet(t, "model");
    var createdAt :- DictGet(t, "created_at");
    Ok(Obj(map["id" := id, "title" := title, "summary" := summary, "tags" := PyOr(tags, Arr([])),
               "source_url" := sourceUrl, "model" := model, "created_at" := createdAt,
               "messages" := Arr([])]))
  }

  /** The dict list_threads returns for a stored thread: its columns, `tags` defaulting to an
      empty list, and no messages. */
  function ListedThread(t: ThreadRow): Json {
    Obj(map["id" := Str(t.id), "title" := Str(t.title), "summary" := ThreadColumn(t, "summary"),
            "tags" := PyOr(ThreadColumn(t, "tags"), Arr([])), "source_url" := ThreadColumn(t, "source_url"),
            "model" := ThreadColumn(t, "model"), "created_at" := Str(t.createdAt), "messages" := Arr([])])
  }

  function Listed(ts: seq<ThreadRow>): (r: seq<Json>)
    ensures |r| == |ts| && forall k :: 0 <= k < |ts| ==> r[k] == ListedThread(ts[k])
  {
    seq(|ts|, k requires 0 <= k < |ts| => ListedThread(ts[k]))
  }

  /** The object the store answers for a thread under ListedColumns holds those columns. */
  lemma ListedKeys()
    ensures PlainColumns(ListedColumns)
    ensures ItemKeys(ListedColumns) == ["id", "title", "summary", "tags", "source_url", "model", "created_at"]
  {
  }

  /** The object the store answers for a thread under ListedColumns holds those columns. */
  lemma ListedColumnsOf(t: ThreadRow, ms: seq<MessageRow>, items: seq<SelectItem>)
    requires items == ListedColumns
    ensures var o := ThreadJson(t, items, map[], ms);
      && "id" in o && o["id"] == Str(t.id)
      && "title" in o && o["title"] == Str(t.title)
      && "summary" in o && o["summary"] == ThreadColumn(t, "summary")
      && "tags" in o && o["tags"] == ThreadColumn(t, "tags")
      && "source_url" in o && o["source_url"] == ThreadColumn(t, "source_url")
      && "model" in o && o["model"] == ThreadColumn(t, "model")
      && "created_at" in o && o["created_at"] == Str(t.createdAt)
  {
    ListedKeys();
    PlainThreadJson(t, items, map[], ms);
    var keys := ItemKeys(items);
    assert keys[0] == "id" && keys[1] == "title" && keys[2] == "summary" && keys[3] == "tags";
    assert keys[4] == "source_url" && keys[5] == "model" && keys[6] == "created_at";
  }

  lemma ListEntryOf(k: nat, t: ThreadRow, ms: seq<MessageRow>)
    ensures ListEntry(k, Obj(ThreadJson(t, ListedColumns, map[], ms))) == Ok(ListedThread(t))
  {
    ListedColumnsOf(t, ms, ListedColumns);
  }

  /** Every row the store lists under these columns is shaped, so the loop yields one
      ListedThread per row. */
  lemma ListedRows(ts: seq<ThreadRow>, ms: seq<MessageRow>)
    ensures var rows := ThreadsJson(ts, ListedColumns, map[], ms);
      Traverse.Prefix(ListEntry, rows, |rows|) == Ok(Listed(ts))
  {
    var rows := ThreadsJson(ts, ListedColumns, map[], ms);
    forall k | 0 <= k < |ts| ensures ListEntry(k, rows[k]) == Ok(ListedThread(ts[k])) {
      ListEntryOf(k, ts[k], ms);
    }
    PrefixOk(ListEntry, rows, |rows|);
    var v := Traverse.Prefix(ListEntry, rows, |rows|).value;
    assert v == Listed(ts);
  }

  /** `list_threads`: the owner's threads newest first, `limit` of them from `offset`, each as
      ListedThread. */
  method ListThreads(db: Database, ownerId: string, limit: int, offset: int)
    returns (r: Result<seq<Json>, Fault>)
    ensures Threads in db.failing ==>
      r == Err(RuntimeError("list_threads query error: " + db.failing[Threads].message))
    ensures Threads !in db.failing ==>
      var w := Windowed(Ordered(Matching(db.threads, ThreadKey(None, Some(ownerId))), Desc),
                        Some(Range(offset, offset + limit - 1)));
      r == (if w.Err? then Err(RuntimeError("list_threads query error: " + w.error.message))
            else Traverse.Prefix(ListEntry, ThreadsJson(w.value, ListedColumns, map[], db.messages), |w.value|))
  {
    var sel := db.SelectThreads(ListedColumns, ThreadKey(None, Some(ownerId)), Desc,
                                Some(Range(offset, offset + limit - 1)), map[]);
    if sel.Err? {
      return Err(RuntimeError("list_threads query error: " + sel.error.message));
    }
    var rows := sel.value;
    var out: seq<Json> := [];
    var i := 0;
    while i < |rows|
      invariant 0 <= i <= |rows|
      invariant Traverse.Prefix(ListEntry, rows, i) == Ok(out)
    {
      var e := ListEntry(i, rows[i]);
      if e.Err? {
        PrefixSticks(ListEntry, rows, i + 1, |rows|);
        return Err(e.error);
      }
      out := out + [e.value];
      i := i + 1;
    }
    return Ok(out);
  }
}
