/** app/repository/extension_files.py: the extension file records of one user, newest first,
    where a missing table (an upstream 404) reads as no records. */
module ExtensionFiles {

  import opened Outcome
  import opened Text
  import opened JsonValue
  import opened Supabase
  import opened RestQuery
  import Traverse
  import Config

  const FileColumns := ["id", "name", "description", "created_at"]

  function FilesParts(userId: string): seq<string> {
    [Eq("user_id", userId), Select(FileColumns), "order=created_at.desc"]
  }

  /** The query filters on the user, selects the four record columns and sorts newest first. */
  lemma FilesQuery(userId: string)
    ensures Split(Query(FilesParts(userId)), '&') == [Eq("user_id", userId), Select(FileColumns), "order=created_at.desc"]
  {
    EqSeparable("user_id", userId);
    SelectSeparable(FileColumns);
    assert '&' !in "order=created_at.desc";
    QueryParts(FilesParts(userId));
  }

  /** One element of the record comprehension. */
  function FileEntry(k: nat, r: Json): Result<Json, Fault> {
    var id :- DictGet(r, "id");
    Ok(Obj(map["id" := id, "name" := PyOr(Field(r, "name"), Str("")),
                "description" := Field(r, "description"), "created_at" := Field(r, "created_at")]))
  }

  function FileRows(rows: Json): Result<seq<Json>, Fault> {
    var items :- PyIter(rows);
    Traverse.Prefix(FileEntry, items, |items|)
  }

  /** One record per row, in order, with exactly the four columns and the name defaulting
      to the empty string. */
  lemma FileRowsShape(rows: seq<Json>)
    ensures FileRows(Arr(rows)).Ok? <==> forall k :: 0 <= k < |rows| ==> rows[k].Obj?
    ensures FileRows(Arr(rows)).Ok? ==>
      var out := FileRows(Arr(rows)).value;
      && |out| == |rows|
      && forall k :: 0 <= k < |rows| ==>
           && out[k].Obj? && out[k].fields.Keys == {"id", "name", "description", "created_at"}
           && out[k].fields["id"] == Field(rows[k], "id")
           && out[k].fields["name"] == (if PyTruthy(Field(rows[k], "name")) then Field(rows[k], "name") else Str(""))
           && out[k].fields["description"] == Field(rows[k], "description")
           && out[k].fields["created_at"] == Field(rows[k], "created_at")
  {
    Traverse.PrefixOk(FileEntry, rows, |rows|);
  }

  /** `list_extension_files_for_user`. */
  method ListExtensionFilesForUser(up: Upstream, s: Config.Settings, userId: string, token: string)
    returns (r: Result<seq<Json>, Fault>)
    modifies up
    ensures userId == "" ==> r == Ok([]) && up.sent == old(up.sent)
    ensures userId != "" ==>
      var req := SelectRequest(s, "extension_files", Query(FilesParts(userId)), token);
      && (req.Err? ==> r == Err(req.error) && up.sent == old(up.sent))
      && (req.Ok? ==>
            && up.sent == old(up.sent) + [req.value]
            && var rep := up.reply(old(up.sent), req.value);
               var rows := CheckedJson(rep, req.value.url);
               r == (if rep.status == 404 then Ok([])
                     else if rows.Err? then Err(rows.error)
                     else FileRows(rows.value)))
  {
    if userId == "" {
      return Ok([]);
    }
    var rows := RestSelect(up, s, "extension_files", Query(FilesParts(userId)), token);
    if rows.Err? {
      if rows.error.UpstreamError? && rows.error.status == 404 {
        return Ok([]);
      }
      return Err(rows.error);
    }
    r := FileRows(rows.value);
  }
}
