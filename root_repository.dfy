/** The one function repository.py adds to the supabase-client repository: searching every
    message of an owner's threads, optionally by a case-insensitive substring of the content. */
module RootRepository {

  import opened Outcome
  import opened Text
  import opened JsonValue
  import opened Seqs
  import opened Store
  import AppRepository

  /** `if q:` — the filter applies only to a search word that is present and not empty. */
  function SearchWord(q: Option<string>): (r: Option<string>)
    ensures r.Some? <==> q.Some? && q.value != ""
    ensures r.Some? ==> r == q
  {
    if q.Some? && q.value != "" then q else None
  }

  /** `order("created_at", desc=not asc)`. */
  function SearchOrder(asc: bool): (o: Order)
    ensures o == Asc <==> asc
  {
    if asc then Asc else Desc
  }

  /** `search_messages_by_owner`. */
  method SearchMessagesByOwner(db: Database, ownerId: string, q: Option<string>, limit: int,
                               offset: int, asc: bool) returns (r: Result<seq<Json>, Fault>)
    ensures Messages in db.failing ==>
      r == Err(RuntimeError("messages search error: " + db.failing[Messages].message))
    ensures Messages !in db.failing ==>
      var w := Windowed(Ordered(Filter(db.messages, Hit(db.threads, ownerId, SearchWord(q))), SearchOrder(asc)),
                        Some(AppRepository.ListWindow(limit, offset)));
      r == (if w.Err? then Err(RuntimeError("messages search error: " + w.error.message))
            else Ok(SearchRows(db.threads, w.value)))
  {
    var sel := db.SearchMessages(ownerId, SearchWord(q), SearchOrder(asc), Some(AppRepository.ListWindow(limit, offset)));
    if sel.Err? {
      return Err(RuntimeError("messages search error: " + sel.error.message));
    }
    return Ok(sel.value);
  }

  /** What a search can return: at most `max(0, limit)` messages, each a stored message of one
      of the owner's threads whose content contains the search word, ignoring ASCII case. */
  lemma SearchPage(ts: seq<ThreadRow>, ms: seq<MessageRow>, ownerId: string, q: Option<string>,
                   limit: int, offset: int, asc: bool)
    requires offset >= 0
    ensures var w := Windowed(Ordered(Filter(ms, Hit(ts, ownerId, SearchWord(q))), SearchOrder(asc)),
                              Some(AppRepository.ListWindow(limit, offset)));
      && w.Ok?
      && |w.value| <= (if limit > 0 then limit else 0)
      && forall k :: 0 <= k < |w.value| ==>
           && w.value[k] in ms
           && ThreadFor(ts, w.value[k].threadId).Some?
           && ThreadFor(ts, w.value[k].threadId).value.ownerId == ownerId
           && (q.Some? && q.value != "" ==> ContainsFolded(w.value[k].content, q.value))
  {
    var lim := if limit > 0 then limit else 0;
    PageRows(ms, Hit(ts, ownerId, SearchWord(q)), SearchOrder(asc), offset, lim);
  }

  /** Without a search word, every message of the owner's threads is a candidate: a window
      wide enough returns all of them. */
  lemma SearchWithoutWord(ts: seq<ThreadRow>, ms: seq<MessageRow>, ownerId: string, q: Option<string>, m: MessageRow)
    requires q.None? || q == Some("")
    requires m in ms
    requires ThreadFor(ts, m.threadId).Some? && ThreadFor(ts, m.threadId).value.ownerId == ownerId
    ensures m in Filter(ms, Hit(ts, ownerId, SearchWord(q)))
  {
    FilterMembers(ms, Hit(ts, ownerId, SearchWord(q)));
  }

  /** The search word is matched regardless of ASCII case, wherever it occurs. */
  lemma SearchIgnoresCase(content: string, q: string)
    requires Lower(content) == Lower(q)
    ensures ContainsFolded(content, q)
  {
    assert OccursAt(Lower(content), Lower(q), 0);
  }
}
