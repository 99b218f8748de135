/** The hosted PostgREST store behind the repositories, as an in-memory object: the `threads`
    and `messages` tables, the equality filters, orderings, windows and embedded resources the
    repositories ask for, and the JSON rows the store answers with.

    What the store does is an assumption about the upstream service, stated here once:
    - rows are kept in insertion order, and insertion order is `created_at` order (ties in
      insertion order); `desc` is the reverse;
    - ordering by `index` is a stable sort with nulls last, and `desc` is its reverse (so
      nulls come first, as in PostgreSQL);
    - `offset`/`limit` select a window; a negative offset or limit is refused with status 400;
    - a select that names an unknown column or relation is refused with status 400;
    - a table in `failing` answers every call with the recorded error. */
module Store {

  import opened Outcome
  import opened Text
  import opened JsonValue
  import opened Seqs

  datatype Table = Threads | Messages

  /** A `threads` row. `extra` holds the nullable columns summary, tags, source_url and model,
      which the modelled code reads but never writes. */
  datatype ThreadRow = ThreadRow(id: string, title: string, ownerId: string, createdAt: string,
                                 extra: map<string, Json>)

  /** A `messages` row; `createdAt` and `index` are None when the insert leaves them to the
      column default, which this model does not know. */
  datatype MessageRow = MessageRow(threadId: string, role: string, content: string,
                                   createdAt: Option<string>, index: Option<int>)

  datatype Order = Asc | Desc

  /** PostgREST's `offset` and `limit`. */
  datatype Window = Window(offset: int, limit: int)

  /** supabase-py's `.range(from, to)`, an inclusive range: offset `from`, limit `to - from + 1`. */
  function Range(from: int, to: int): (w: Window)
    ensures w.offset == from && w.offset + w.limit - 1 == to
  {
    Window(from, to - from + 1)
  }

  /** The `id=eq.` and `owner_id=eq.` filters of a thread query. */
  datatype ThreadKey = ThreadKey(id: Option<string>, ownerId: Option<string>)

  /** An item of a thread query's `select=`: a column (or `*`), or an embedded relation under
      an alias, with its own columns (`count` alone asks for the number of related rows). */
  datatype SelectItem = Col(name: string) | Embed(alias: string, relation: string, cols: seq<string>)

  /** `<alias>.order=created_at.<order>` and `<alias>.limit=<n>` for an embedded relation. */
  datatype EmbedOptions = EmbedOptions(order: Order, limit: Option<nat>)

  datatype StoreError = StoreError(status: int, message: string)

  const ThreadColumns: set<string> :=
    {"id", "title", "owner_id", "created_at", "summary", "tags", "source_url", "model"}
  const MessageColumns: set<string> := {"thread_id", "role", "content", "created_at", "index"}

  predicate KeyMatches(key: ThreadKey, t: ThreadRow) {
    (key.id.None? || key.id.value == t.id) && (key.ownerId.None? || key.ownerId.value == t.ownerId)
  }

  function Keyed(key: ThreadKey): ThreadRow -> bool {
    (t: ThreadRow) => KeyMatches(key, t)
  }

  function Unkeyed(key: ThreadKey): ThreadRow -> bool {
    (t: ThreadRow) => !KeyMatches(key, t)
  }

  function InThread(tid: string): MessageRow -> bool {
    (m: MessageRow) => m.threadId == tid
  }

  function Matching(ts: seq<ThreadRow>, key: ThreadKey): seq<ThreadRow> {
    Filter(ts, Keyed(key))
  }

  function MessagesOf(ms: seq<MessageRow>, tid: string): seq<MessageRow> {
    Filter(ms, InThread(tid))
  }

  function Ordered<T>(s: seq<T>, o: Order): seq<T> {
    if o == Asc then s else Reverse(s)
  }

  function Windowed<T>(s: seq<T>, w: Option<Window>): Result<seq<T>, StoreError> {
    match w
    case None => Ok(s)
    case Some(Window(off, lim)) =>
      if off < 0 || lim < 0 then Err(StoreError(400, "invalid range"))
      else
        var lo := if off < |s| then off else |s|;
        var hi := if off + lim < |s| then off + lim else |s|;
        Ok(s[lo..hi])
  }

  /** A window with a non-negative offset and limit `n` keeps at most `n` rows, taken in order
      from position `offset`; limit 0 keeps none. */
  lemma WindowShape<T>(s: seq<T>, off: int, lim: int)
    requires off >= 0 && lim >= 0
    ensures var r := Windowed(s, Some(Window(off, lim)));
      && r.Ok? && |r.value| <= lim
      && (forall k :: 0 <= k < |r.value| ==> off + k < |s| && r.value[k] == s[off + k])
      && (off + lim <= |s| ==> |r.value| == lim)
      && (lim == 0 ==> r.value == [])
  {
  }

  /** `.single()`: the one row, or status 406 when there are none or several. */
  function Single(rows: Result<seq<Json>, StoreError>): (r: Result<Json, StoreError>)
    ensures r.Ok? <==> rows.Ok? && |rows.value| == 1
    ensures r.Ok? ==> r.value == rows.value[0]
    ensures rows.Err? ==> r == Err(rows.error)
  {
    match rows
    case Err(e) => Err(e)
    case Ok(rs) =>
      if |rs| == 1 then Ok(rs[0])
      else Err(StoreError(406, "JSON object requested, multiple (or no) rows returned"))
  }

  /** A page of filtered rows: at most `lim` of them, each a row of the table that satisfies
      the filter. */
  lemma PageRows<T>(s: seq<T>, p: T -> bool, o: Order, off: int, lim: int)
    requires off >= 0 && lim >= 0
    ensures var r := Windowed(Ordered(Filter(s, p), o), Some(Window(off, lim)));
      && r.Ok? && |r.value| <= lim
      && forall k :: 0 <= k < |r.value| ==> r.value[k] in s && p(r.value[k])
  {
    FilterMembers(s, p);
    var f := Filter(s, p);
    var ordered := Ordered(f, o);
    assert forall x :: x in ordered ==> x in f by {
      if o == Desc {
        forall x | x in ordered ensures x in f {
          var k :| 0 <= k < |ordered| && ordered[k] == x;
          assert f[|f| - 1 - k] == x;
        }
      }
    }
    WindowShape(ordered, off, lim);
    var r := Windowed(ordered, Some(Window(off, lim)));
    forall k | 0 <= k < |r.value| ensures r.value[k] in s && p(r.value[k]) {
      assert r.value[k] == ordered[off + k];
    }
  }

  // Ordering by `index`

  predicate IndexLe(a: Option<int>, b: Option<int>) {
    b.None? || (a.Some? && a.value <= b.value)
  }

  function InsertByIndex(sorted: seq<MessageRow>, x: MessageRow): (r: seq<MessageRow>)
    ensures |r| == |sorted| + 1
    decreases |sorted|
  {
    if sorted == [] || IndexLe(sorted[|sorted| - 1].index, x.index) then sorted + [x]
    else InsertByIndex(sorted[..|sorted| - 1], x) + [sorted[|sorted| - 1]]
  }

  /** `order=index.asc`: a stable insertion sort, nulls last. */
  function SortByIndex(ms: seq<MessageRow>): (r: seq<MessageRow>)
    ensures |r| == |ms|
    decreases |ms|
  {
    if ms == [] then [] else InsertByIndex(SortByIndex(ms[..|ms| - 1]), ms[|ms| - 1])
  }

  ghost predicate IndexSorted(ms: seq<MessageRow>) {
    forall i, j :: 0 <= i < j < |ms| ==> IndexLe(ms[i].index, ms[j].index)
  }

  /** Rows already in index order are left as they are. */
  lemma {:induction false} SortSortedIsIdentity(ms: seq<MessageRow>)
    requires IndexSorted(ms)
    ensures SortByIndex(ms) == ms
    decreases |ms|
  {
    if ms != [] {
      var init := ms[..|ms| - 1];
      assert IndexSorted(init);
      SortSortedIsIdentity(init);
      assert ms == init + [ms[|ms| - 1]];
    }
  }

  datatype MessageOrder = ByCreatedAt | ByIndex

  function OrderMessages(ms: seq<MessageRow>, key: MessageOrder, o: Order): seq<MessageRow> {
    match key
    case ByCreatedAt => Ordered(ms, o)
    case ByIndex => Ordered(SortByIndex(ms), o)
  }

  /** The messages of a thread carry the indices 0, 1, 2, ... in insertion order. */
  ghost predicate IndexContiguous(ms: seq<MessageRow>, tid: string) {
    var own := MessagesOf(ms, tid);
    forall k :: 0 <= k < |own| ==> own[k].index == Some(k)
  }

  // The JSON rows the store answers with

  function ThreadColumn(t: ThreadRow, name: string): Json {
    if name == "id" then Str(t.id)
    else if name == "title" then Str(t.title)
    else if name == "owner_id" then Str(t.ownerId)
    else if name == "created_at" then Str(t.createdAt)
    else if name in t.extra then t.extra[name]
    else Null
  }

  function MessageColumn(m: MessageRow, name: string): Json {
    if name == "thread_id" then Str(m.threadId)
    else if name == "role" then Str(m.role)
    else if name == "content" then Str(m.content)
    else if name == "created_at" then OptStr(m.createdAt)
    else if name == "index" then (if m.index.Some? then Num(m.index.value) else Null)
    else Null
  }

  function ProjectMessage(m: MessageRow, cols: seq<string>): (r: Json)
    ensures r.Obj? && r.fields.Keys == set c | c in cols
    ensures forall c :: c in cols ==> r.fields[c] == MessageColumn(m, c)
  {
    Obj(map c | c in cols :: MessageColumn(m, c))
  }

  predicate ValidItem(item: SelectItem) {
    match item
    case Col(n) => n == "*" || n in ThreadColumns
    case Embed(_, rel, cols) =>
      rel == "messages" && (cols == ["count"] || forall k :: 0 <= k < |cols| ==> cols[k] in MessageColumns)
  }

  predicate ValidItems(items: seq<SelectItem>) {
    forall k :: 0 <= k < |items| ==> ValidItem(items[k])
  }

  predicate ValidColumns(cols: seq<string>) {
    forall k :: 0 <= k < |cols| ==> cols[k] in MessageColumns
  }

  /** The related messages an embedded relation lists: all of them in `created_at` order, or
      their number when only `count` is asked for. */
  function EmbedValue(t: ThreadRow, cols: seq<string>, opt: EmbedOptions, ms: seq<MessageRow>): Json {
    var related := MessagesOf(ms, t.id);
    if cols == ["count"] then Arr([Obj(map["count" := Num(|related|)])])
    else
      var ordered := Ordered(related, opt.order);
      var listed := if opt.limit.Some? then Seqs.Prefix(ordered, opt.limit.value) else ordered;
      Arr(seq(|listed|, k requires 0 <= k < |listed| => ProjectMessage(listed[k], cols)))
  }

  function StarFields(t: ThreadRow): map<string, Json> {
    map c | c in ThreadColumns :: ThreadColumn(t, c)
  }

  function ItemFields(t: ThreadRow, item: SelectItem, opts: map<string, EmbedOptions>,
                      ms: seq<MessageRow>): map<string, Json> {
    match item
    case Col(n) => if n == "*" then StarFields(t) else map[n := ThreadColumn(t, n)]
    case Embed(a, _, cols) =>
      map[a := EmbedValue(t, cols, if a in opts then opts[a] else EmbedOptions(Asc, None), ms)]
  }

  /** The JSON object for one thread row under a `select=` list. */
  function ThreadJson(t: ThreadRow, items: seq<SelectItem>, opts: map<string, EmbedOptions>,
                      ms: seq<MessageRow>): map<string, Json>
    decreases |items|
  {
    if items == [] then map[]
    else ThreadJson(t, items[..|items| - 1], opts, ms) + ItemFields(t, items[|items| - 1], opts, ms)
  }

  predicate PlainColumns(items: seq<SelectItem>) {
    forall k :: 0 <= k < |items| ==> items[k].Col? && items[k].name != "*"
  }

  /** The key an item contributes to a row's object. */
  function ItemKey(item: SelectItem): string {
    match item
    case Col(n) => n
    case Embed(a, _, _) => a
  }

  function ItemKeys(items: seq<SelectItem>): (r: seq<string>)
    ensures |r| == |items| && forall k :: 0 <= k < |items| ==> r[k] == ItemKey(items[k])
  {
    seq(|items|, k requires 0 <= k < |items| => ItemKey(items[k]))
  }

  /** Under a list of plain columns, a thread's object has exactly those keys, each holding
      the row's column. */
  lemma {:induction false} PlainThreadJson(t: ThreadRow, items: seq<SelectItem>,
                                           opts: map<string, EmbedOptions>, ms: seq<MessageRow>)
    requires PlainColumns(items)
    ensures var o := ThreadJson(t, items, opts, ms);
      && (forall n :: n in o <==> n in ItemKeys(items))
      && forall n :: n in o ==> o[n] == ThreadColumn(t, n)
    decreases |items|
  {
    if items != [] {
      var init := items[..|items| - 1];
      var last := items[|items| - 1];
      PlainThreadJson(t, init, opts, ms);
      assert ItemKeys(items) == ItemKeys(init) + [ItemKey(last)];
      assert ItemFields(t, last, opts, ms) == map[ItemKey(last) := ThreadColumn(t, ItemKey(last))];
    }
  }

  function ThreadsJson(ts: seq<ThreadRow>, items: seq<SelectItem>, opts: map<string, EmbedOptions>,
                       ms: seq<MessageRow>): (r: seq<Json>)
    ensures |r| == |ts|
    ensures forall k :: 0 <= k < |ts| ==> r[k] == Obj(ThreadJson(ts[k], items, opts, ms))
  {
    seq(|ts|, k requires 0 <= k < |ts| => Obj(ThreadJson(ts[k], items, opts, ms)))
  }

  function MessagesJson(ms: seq<MessageRow>, cols: seq<string>): (r: seq<Json>)
    ensures |r| == |ms|
    ensures forall k :: 0 <= k < |ms| ==> r[k] == ProjectMessage(ms[k], cols)
  {
    seq(|ms|, k requires 0 <= k < |ms| => ProjectMessage(ms[k], cols))
  }

  /** A thread's owner, when a thread with that id exists (the first, should there be several). */
  function ThreadFor(ts: seq<ThreadRow>, id: string): Option<ThreadRow>
    decreases |ts|
  {
    if ts == [] then None
    else if ts[0].id == id then Some(ts[0])
    else ThreadFor(ts[1..], id)
  }

  /** `ilike.%q%` on ASCII: the lower-cased pattern occurs in the lower-cased content. */
  predicate OccursAt(text: string, q: string, i: int) {
    0 <= i <= |text| - |q| && text[i..i + |q|] == q
  }

  predicate ContainsFolded(content: string, q: string) {
    exists i :: 0 <= i <= |content| && OccursAt(Lower(content), Lower(q), i)
  }

  predicate SearchHit(ts: seq<ThreadRow>, owner: string, q: Option<string>, m: MessageRow) {
    && ThreadFor(ts, m.threadId).Some? && ThreadFor(ts, m.threadId).value.ownerId == owner
    && (q.None? || ContainsFolded(m.content, q.value))
  }

  function Hit(ts: seq<ThreadRow>, owner: string, q: Option<string>): MessageRow -> bool {
    (m: MessageRow) => SearchHit(ts, owner, q, m)
  }

  /** A search result row: the message columns and the joined thread's id, title and owner. */
  function SearchJson(ts: seq<ThreadRow>, m: MessageRow): Json {
    var t := ThreadFor(ts, m.threadId);
    Obj(ProjectMessage(m, ["thread_id", "role", "content", "created_at"]).fields[
      "threads" := if t.Some? then Obj(map["id" := Str(t.value.id), "title" := Str(t.value.title),
                                          "owner_id" := Str(t.value.ownerId)])
                   else Null])
  }

  function SearchRows(ts: seq<ThreadRow>, ms: seq<MessageRow>): (r: seq<Json>)
    ensures |r| == |ms|
    ensures forall k :: 0 <= k < |ms| ==> r[k] == SearchJson(ts, ms[k])
  {
    seq(|ms|, k requires 0 <= k < |ms| => SearchJson(ts, ms[k]))
  }

  class Database {
    var threads: seq<ThreadRow>
    var messages: seq<MessageRow>
    /** Tables whose calls fail, with the error they answer. */
    var failing: map<Table, StoreError>

    constructor(threads: seq<ThreadRow>, messages: seq<MessageRow>, failing: map<Table, StoreError>)
      ensures this.threads == threads && this.messages == messages && this.failing == failing
    {
      this.threads := threads;
      this.messages := messages;
      this.failing := failing;
    }

    /** `POST /rest/v1/threads` or `table("threads").insert(...)`. */
    method InsertThreads(rows: seq<ThreadRow>) returns (r: Result<(), StoreError>)
      modifies this
      ensures failing == old(failing) && messages == old(messages)
      ensures Threads in failing ==> r == Err(failing[Threads]) && threads == old(threads)
      ensures Threads !in failing ==> r == Ok(()) && threads == old(threads) + rows
    {
      if Threads in failing {
        return Err(failing[Threads]);
      }
      threads := threads + rows;
      return Ok(());
    }

    /** `POST /rest/v1/messages` or `table("messages").insert(...)`. */
    method InsertMessages(rows: seq<MessageRow>) returns (r: Result<(), StoreError>)
      modifies this
      ensures failing == old(failing) && threads == old(threads)
      ensures Messages in failing ==> r == Err(failing[Messages]) && messages == old(messages)
      ensures Messages !in failing ==> r == Ok(()) && messages == old(messages) + rows
    {
      if Messages in failing {
        return Err(failing[Messages]);
      }
      messages := messages + rows;
      return Ok(());
    }

    /** A select on `threads`. */
    method SelectThreads(items: seq<SelectItem>, key: ThreadKey, order: Order, w: Option<Window>,
                         opts: map<string, EmbedOptions>) returns (r: Result<seq<Json>, StoreError>)
      ensures Threads in failing ==> r == Err(failing[Threads])
      ensures Threads !in failing && !ValidItems(items) ==> r.Err? && r.error.status == 400
      ensures Threads !in failing && ValidItems(items) ==>
        var rows := Windowed(Ordered(Matching(threads, key), order), w);
        r == (if rows.Err? then Err(rows.error) else Ok(ThreadsJson(rows.value, items, opts, messages)))
    {
      if Threads in failing {
        return Err(failing[Threads]);
      }
      if !ValidItems(items) {
        return Err(StoreError(400, "unknown column or relation"));
      }
      var rows := Windowed(Ordered(Matching(threads, key), order), w);
      if rows.Err? {
        return Err(rows.error);
      }
      return Ok(ThreadsJson(rows.value, items, opts, messages));
    }

    /** `DELETE /rest/v1/threads?...` with `Prefer: return=representation`: the deleted rows
        come back as the body. Messages are untouched (see the README on cascading). */
    method DeleteThreads(key: ThreadKey) returns (r: Result<seq<Json>, StoreError>)
      modifies this
      ensures failing == old(failing) && messages == old(messages)
      ensures Threads in failing ==> r == Err(failing[Threads]) && threads == old(threads)
      ensures Threads !in failing ==>
        && r == Ok(ThreadsJson(Matching(old(threads), key), [Col("*")], map[], messages))
        && threads == Filter(old(threads), Unkeyed(key))
    {
      if Threads in failing {
        return Err(failing[Threads]);
      }
      var gone := Matching(threads, key);
      threads := Filter(threads, Unkeyed(key));
      return Ok(ThreadsJson(gone, [Col("*")], map[], messages));
    }

    /** A select on `messages` filtered by `thread_id=eq.`. */
    method SelectMessages(cols: seq<string>, tid: string, key: MessageOrder, order: Order,
                          w: Option<Window>) returns (r: Result<seq<Json>, StoreError>)
      ensures Messages in failing ==> r == Err(failing[Messages])
      ensures Messages !in failing && !ValidColumns(cols) ==> r.Err? && r.error.status == 400
      ensures Messages !in failing && ValidColumns(cols) ==>
        var rows := Windowed(OrderMessages(MessagesOf(messages, tid), key, order), w);
        r == (if rows.Err? then Err(rows.error) else Ok(MessagesJson(rows.value, cols)))
    {
      if Messages in failing {
        return Err(failing[Messages]);
      }
      if !ValidColumns(cols) {
        return Err(StoreError(400, "unknown column"));
      }
      var rows := Windowed(OrderMessages(MessagesOf(messages, tid), key, order), w);
      if rows.Err? {
        return Err(rows.error);
      }
      return Ok(MessagesJson(rows.value, cols));
    }

    /** A select on `messages` joined to `threads!inner`, filtered by the joined thread's
        owner and, optionally, by `ilike` on the content. */
    method SearchMessages(owner: string, q: Option<string>, order: Order, w: Option<Window>)
      returns (r: Result<seq<Json>, StoreError>)
      ensures Messages in failing ==> r == Err(failing[Messages])
      ensures Messages !in failing ==>
        var rows := Windowed(Ordered(Filter(messages, Hit(threads, owner, q)), order), w);
        r == (if rows.Err? then Err(rows.error)
              else Ok(SearchRows(threads, rows.value)))
    {
      if Messages in failing {
        return Err(failing[Messages]);
      }
      var rows := Windowed(Ordered(Filter(messages, Hit(threads, owner, q)), order), w);
      if rows.Err? {
        return Err(rows.error);
      }
      return Ok(SearchRows(threads, rows.value));
    }
  }

  // Facts about the store used by the repositories

  /** Appending rows of one thread leaves every other thread's messages as they were. */
  lemma MessagesOfAppend(ms: seq<MessageRow>, rows: seq<MessageRow>, tid: string, other: string)
    requires forall k :: 0 <= k < |rows| ==> rows[k].threadId == tid
    ensures MessagesOf(ms + rows, tid) == MessagesOf(ms, tid) + rows
    ensures other != tid ==> MessagesOf(ms + rows, other) == MessagesOf(ms, other)
  {
    FilterAppend(ms, rows, InThread(tid));
    FilterAll(rows, InThread(tid));
    FilterAppend(ms, rows, InThread(other));
    if other != tid {
      FilterNone(rows, InThread(other));
    }
  }

  /** With contiguous indices, the rows are already in index order, so `order=index.desc`
      with `limit=1` finds the last inserted row, whose index is the count minus one. */
  lemma ContiguousTop(ms: seq<MessageRow>, tid: string)
    requires IndexContiguous(ms, tid)
    ensures var own := MessagesOf(ms, tid);
      && SortByIndex(own) == own
      && (own != [] ==> Ordered(SortByIndex(own), Desc)[0].index == Some(|own| - 1))
  {
    var own := MessagesOf(ms, tid);
    assert IndexSorted(own);
    SortSortedIsIdentity(own);
  }
}
