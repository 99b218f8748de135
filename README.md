# Thread log and auth relay, modelled in Dafny

This project models the logic of a thread logger: a FastAPI backend that stores chat threads (a title and its ordered messages) in a hosted Supabase project, relays the project's authentication, and serves a Next.js frontend. It also models the two frontend helpers that talk to the backend. The hosted service itself is not part of the system. It appears in two forms:

- `Store.Database`, an in-memory PostgREST store with `threads` and `messages` tables, stands behind the supabase-py repositories. The module comment of `store.dfy` lists what the model assumes about the store: ordering, windows, refused selects and failing tables.
- `Supabase.Upstream` stands behind the modules that send HTTP requests themselves. It records every request sent and answers each one with a reply that depends on the requests before it.

Every operation that calls the service is stated against one of these two. A method's result and the requests it sends are tied to a function (`CreateCall`, `DetailCall` and so on) of the service and of the requests already sent. The lemmas then speak about those functions.

The model covers:

- **Ingest normalisers.** The `/ingest` normalisers of `app/main.py` and `app/modification/main.py`, and the pydantic models of `app/schemas/thread.py`. Each returns the normalised record or the error the source raises.
- **Repositories.**
  - `app/repository/query.py`: numbered message inserts, the fetch with embedded messages, and listing.
  - `app/repository.py`: the same three operations. `repository.py` repeats them line for line and adds message search.
  - `app/repository/thread.py`: built on PostgREST query strings, and checking ownership before every read or write.
- **Routes.** The status and body decisions of the thread and auth routes, including the cookies they set.
- **Token relay.** The request dependencies, the Supabase HTTP helpers, the e-mail lookup and the extension-file listing.
- **Cookies and settings.** The refresh-token cookie and the settings it is derived from.
- **Prompt builder.** The Ollama prompt serialiser.
- **Frontend helpers.** `apiFetch` and the browser token store: `localStorage` plus a cookie jar that follows RFC 6265, sections 5.2 and 5.3.

`repository.py` is textually identical to `app/repository.py` for `insert_thread_and_messages`, `fetch_thread` and `list_threads`. Its `create_thread_and_messages` and `get_thread` are aliases of the first two. Module `AppRepository` therefore models both files. Its rows cite `app/repository.py`, and `RootRepository` models the search it adds.

## Model

| member | source | states |
|---|---|---|
| MainIngest.StripOrEmpty | app/main.py:133-134 | a falsy value reads as `""`; a truthy string is stripped; any other truthy value fails |
| MainIngest.Normalized | app/main.py:124-156 | a header error is raised as it is; an accepted body keeps the title and owner id the header rules read |
| MainIngest.NormalizePayload | app/main.py:124-156 | the loop over `messages` returns exactly what `Normalized` says `_normalize_payload` returns or raises |
| MainIngest.NonObjectRejected | app/main.py:130-131 | a body that is not an object is a ValueError |
| MainIngest.TitleAndOwner | app/main.py:133-140 | an accepted body has a non-empty stripped title; the owner id comes from `owner_id` when that is truthy, else from `ownerId`, stripped and non-empty |
| MainIngest.MissingMessagesAccepted | app/main.py:135 | without a `messages` key the body is accepted with no messages |
| MainIngest.HeaderItems | app/main.py:135 | the loop walks `messages`, or `[]` when it is missing or falsy |
| MainIngest.MessagesNormalized | app/main.py:142-156 | the output has one message per input message, in order, each keeping only the stripped content and the stored role |
| MainIngest.CheckMessageOk | app/main.py:144-154 | an accepted message is an object whose role is one of the four accepted ones and whose stripped content is non-empty; the stored role is `user` only for `user` |
| MainIngest.ToolCoerced | app/main.py:153 | `tool` and `system` messages are kept as `assistant` |
| MainIngest.BadMessageRejected | app/main.py:146-151 | one message with a role outside user/assistant/system/tool, or with blank content, rejects the whole body with a ValueError |
| MainIngest.CheckMessageErr | app/main.py:144-151 | the loop body raises only ValueError |
| MainIngest.ToStandardAlphabet | app/main.py:200 | each character is mapped on its own, `-` to `+` and `_` to `/`, and the length is kept |
| MainIngest.PaddingAligns | app/main.py:201-202 | the padded length is a multiple of 4, fewer than 4 `=` are added, and no smaller count would align; an aligned input gets none |
| MainIngest.AlphabetTranslated | app/main.py:200 | the base64url digit of every value maps to the standard digit of the same value (sections 4 and 5 of RFC 4648), and no `-` or `_` is left |
| ModificationIngest.StrictStrip | app/modification/main.py:65-69 | `.strip()` on `raw.get(key)` succeeds exactly for a present string and fails with an attribute error otherwise |
| ModificationIngest.NormalizePayload | app/modification/main.py:63-91 | the loop returns exactly what `Normalized` says `normalize_payload` returns or raises |
| ModificationIngest.HeaderRules | app/modification/main.py:65-75 | an accepted body has a present string title and `owner_id`, both stripped and non-empty, and a truthy `messages` |
| ModificationIngest.NoOwnerAlias | app/modification/main.py:69-71 | without `owner_id` the body fails whatever `ownerId` holds |
| ModificationIngest.EmptyMessagesRejected | app/modification/main.py:73-75 | a missing or empty message list is a ValueError |
| ModificationIngest.HeaderItems | app/modification/main.py:73-79 | the loop walks the `messages` value itself |
| ModificationIngest.MessagesNormalized | app/modification/main.py:78-91 | an accepted body has at least one message; the output has one message per input, in order, with the lowercased role kept uncoerced and the stripped content |
| ModificationIngest.CheckMessageOk | app/modification/main.py:80-89 | an accepted message has role user, assistant or system and non-empty stripped content |
| ModificationIngest.CheckMessageErr | app/modification/main.py:80-87 | the loop body raises only ValueError |
| ModificationIngest.BadMessageRejected | app/modification/main.py:82-87 | a message with another role, or with blank content, rejects the whole body with a ValueError |
| ModificationIngest.ToolRejectedHere | app/modification/main.py:84-85 | `tool` is rejected here with the indexed message, unlike in app/main.py |
| ModificationIngest.IngestFault | app/modification/main.py:102-107 | ValueError and ConfigError become 400, every other failure 500 |
| ModificationIngest.Ingest | app/modification/main.py:94-107 | a body error is mapped by `IngestFault` before anything is stored; otherwise the call succeeds exactly when storing does, answers the stored value, and maps a store failure through `IngestFault` |
| ModificationIngest.BadBodyIs400 | app/modification/main.py:96-104 | every ValueError of the body is a 400 |
| ModificationIngest.GetThread | app/modification/main.py:109-120 | no data is 404 "Thread not found", data is returned, an HTTP error passes through and any other failure is a 500 |
| ThreadSchema.TrimmedField | app/schemas/thread.py:67-80 | a `str` field with `min_length=1` and the strip validator is accepted exactly when it is a string that is not blank, and keeps the stripped text |
| ThreadSchema.RoleField | app/schemas/thread.py:30-34 | a role is accepted exactly when it is a string equal to one of the four literals, and is kept as given |
| ThreadSchema.MessagesIssuesEmpty | app/schemas/thread.py:70 | the list validator reports no issue exactly when every element from the given index on is a valid message |
| ThreadSchema.MessageIssuesEmpty | app/schemas/thread.py:33-56 | a message reports no issue exactly when it is valid: an object with an allowed role and non-blank string content |
| ThreadSchema.ValidateAccepts | app/schemas/thread.py:66-87 | an `IngestRequest` validates exactly when the body is an object with a non-blank string title, a non-blank string owner id under the key pydantic reads, and a `messages` list (or none) of valid messages |
| ThreadSchema.ValidatedShape | app/schemas/thread.py:66-87 | the validated request holds the stripped title and owner id, and one built message per input message in order, or none when `messages` is missing |
| ThreadSchema.BuildMessageShape | app/schemas/thread.py:33-56 | a built message keeps the role and the stripped content |
| ThreadSchema.OwnerAlias | app/schemas/thread.py:66-69 | the owner id is read from `ownerId` when present, otherwise from `owner_id` |
| ThreadSchema.UnknownFieldIgnored | app/schemas/thread.py:21 | adding any other key leaves the outcome unchanged |
| ThreadSchema.RoleCaseSensitive | app/schemas/thread.py:30-42 | in pydantic v2 the literal check runs before the lowercasing validator, so `User` is rejected although its lowercase form is allowed |
| ThreadSchema.MinLengthSubsumed | app/schemas/thread.py:67-80 | the strip validator accepts exactly the non-blank strings, and those already meet `min_length=1` |
| ThreadSchema.MessageOutRole | app/schemas/thread.py:95-97 | an output role is only `user` or `assistant`; any other is a `literal_error` |
| ThreadSchema.IngestResponseStatus | app/schemas/thread.py:90-92 | a response status is only `saved`; any other is a `literal_error` |
| QueryRepository.InsertThread | app/repository/query.py:6-19 | on success the new thread row holds the fresh id, the payload's title and owner id and the timestamp, and the id is returned; an insert error is a RuntimeError and changes nothing |
| QueryRepository.NumberedRows | app/repository/query.py:38-48 | the k-th new row carries the thread id, the role and content unchanged, the shared timestamp and index last+1+k |
| QueryRepository.NumberMessages | app/repository/query.py:35-48 | the loop builds exactly `NumberedRows` from the last index, nothing for no messages, and fails when the last index is not a number |
| QueryRepository.InsertMessages | app/repository/query.py:22-55 | the last index is the highest stored index of the thread or -1; no messages means no insert; otherwise the numbered rows are appended and returned, or an insert error is a RuntimeError that changes nothing |
| QueryRepository.InsertKeepsContiguous | app/repository/query.py:27-48 | on a thread indexed 0..n-1 the last index is n-1, the new rows continue it to n+N-1, and other threads are untouched |
| QueryRepository.ContiguousLast | app/repository/query.py:27-35 | on a thread indexed 0..n-1 the last index read is n-1, so an empty thread starts at 0 |
| QueryRepository.NullIndexBlocksInsert | app/repository/query.py:27-40 | a stored message with a null index sorts first under `desc`, so the last index read is null and the addition fails |
| QueryRepository.GluedSelect | app/repository/query.py:64-67 | the two adjacent literals render as the seven columns glued to `messages(...)` with no comma, which the store refuses, while the intended list with the comma is accepted |
| QueryRepository.FetchThreadSelecting | app/repository/query.py:58-101 | a store error is a RuntimeError; a refused select is a RuntimeError; `.single()` fails unless exactly one thread has the id; one thread is shaped into the returned dict |
| QueryRepository.FetchThreadAsWritten | app/repository/query.py:58-74 | with the select as written every call fails with a RuntimeError |
| QueryRepository.FetchThread | app/repository/query.py:58-101 | with the intended select a single stored thread is returned with its columns, `tags` defaulting to `[]`, and its messages shaped to role, content and created_at |
| QueryRepository.FetchedRow | app/repository/query.py:75-101 | the shaping of a selected row is the thread's columns with `tags` defaulting to `[]` and each message kept as role, content and created_at |
| QueryRepository.Listed | app/repository/query.py:116-128 | one entry per row, in order, each with `messages: []` |
| QueryRepository.ListedRows | app/repository/query.py:116-128 | the loop over the selected rows yields `Listed` of them: the seven columns, `tags` defaulting to `[]`, and `messages: []` |
| QueryRepository.ListThreads | app/repository/query.py:104-128 | the owner's threads, newest first, in the inclusive range offset..offset+limit-1, each listed; a store error or a refused window is a RuntimeError |
| Store.Range | app/repository/query.py:110 | `.range(from, to)` is the window starting at `from` whose last position is `to` |
| Store.Single | app/repository/query.py:69 | `.single()` succeeds exactly on one row and returns it |
| ThreadRepository.NormalizeRole | app/repository/thread.py:8-10 | the stored role is `user` or `assistant`, and `user` exactly when the lowercased, stripped role is `user` |
| ThreadRepository.NormalizeRoleStable | app/repository/thread.py:8-10 | normalising a stored role keeps it; a missing or empty role becomes `assistant` |
| ThreadRepository.CreatedRowsShape | app/repository/thread.py:24-31 | the comprehension succeeds exactly when every message has content, and then gives one row per message with the new thread id, the normalised role, the stripped content and the shared timestamp |
| ThreadRepository.CreateOrder | app/repository/thread.py:13-34 | the thread insert is sent first, the messages in at most one second insert and not at all when there are none; a failed thread insert stops there; success answers the new id |
| ThreadRepository.CreateThreadWithMessages | app/repository/thread.py:13-34 | the result and the requests sent are those of `CreateCall`, with the generated id and clock reading as inputs |
| ThreadRepository.ListOrder | app/repository/thread.py:44 | the order is `asc` or `desc`, and `asc` exactly when the given order lowercases to `asc` |
| ThreadRepository.ListQuery | app/repository/thread.py:45-58 | the `&`-joined query splits back into its parts: the owner filter first, the order, and limit and offset that read back as the given integers |
| ThreadRepository.ListThreadsForOwner | app/repository/thread.py:37-74 | one select of the owner's threads is sent and its rows become the summaries of `ListCall` |
| ThreadRepository.SummariesShape | app/repository/thread.py:61-74 | one summary per row, in order, each with exactly id, title, created_at, message_count and last_message_preview taken from the row |
| ThreadRepository.SummaryEntryShape | app/repository/thread.py:63-73 | one summary has exactly the five keys, with the row's id, title and time, its count and its preview |
| ThreadRepository.SummariesFail | app/repository/thread.py:62-73 | the loop fails exactly when some row's summary fails |
| ThreadRepository.CountRule | app/repository/thread.py:63 | the count is 0 without or with falsy `messages`, the first element's `count` when given, and 0 when that element has none |
| ThreadRepository.PreviewRule | app/repository/thread.py:64-66 | the preview is None for missing, null or empty content and otherwise the first 50 characters, never empty |
| ThreadRepository.OwnerFiltered | app/repository/thread.py:78-81 | the delete, detail and probe queries all start with the `id` and `owner_id` filters, so every read or write of a thread names its owner |
| ThreadRepository.DeleteThreadById | app/repository/thread.py:77-83 | one delete scoped by thread and owner is sent and its count returned |
| ThreadRepository.DetailShape | app/repository/thread.py:97-114 | the detail is `{}` exactly when no row came back; otherwise it has exactly id, title, created_at and the first row's messages in order |
| ThreadRepository.DetailMessageDefaults | app/repository/thread.py:103-107 | a message without role, content or time reads `assistant`, `""` and `""`; a truthy role is kept |
| ThreadRepository.GetThreadDetail | app/repository/thread.py:86-114 | one select scoped by thread and owner is sent and its rows become the detail |
| ThreadRepository.MessagesOrder | app/repository/thread.py:135 | the order is `asc` or `desc`, and `desc` exactly when the given order lowercases to `desc` |
| ThreadRepository.MessagesQuery | app/repository/thread.py:136-142 | the page query splits back into its parts: the thread filter, ordering by `index`, and limit and offset read back unchanged |
| ThreadRepository.MessageRowsShape | app/repository/thread.py:145-150 | one entry per returned message in order, with exactly index, role, content and created_at, and index 0, role `assistant` and content `""` when missing |
| ThreadRepository.MessageEntryShape | app/repository/thread.py:145-150 | one entry has the four keys and the defaults for missing fields |
| ThreadRepository.MessagesCheckOwnerFirst | app/repository/thread.py:125-133 | the ownership probe is sent first, and a thread that is not the owner's gives `(False, [])` with no page request |
| ThreadRepository.ListThreadMessages | app/repository/thread.py:117-152 | the probe and then the page are sent as `MessagesCall` says |
| ThreadRepository.AddedRowsShape | app/repository/thread.py:171-180 | the loop succeeds exactly when no content is blank, fails with "Message content cannot be empty" otherwise, and builds rows with thread id, normalised role and stripped content and no index |
| ThreadRepository.AddChecksOwnerFirst | app/repository/thread.py:161-183 | the probe is sent first; a thread that is not the owner's gives `(False, 0)` and nothing else; a blank message on the owner's thread fails before the insert; success counts the messages given |
| ThreadRepository.AddMessagesToThread | app/repository/thread.py:155-183 | the probe and the single insert are sent as `AddCall` says |
| AppRepository.PlainRows | app/repository.py:28-35 | one row per message, in order, with the new thread id and role and content copied unchanged, leaving index and time to the store |
| AppRepository.BuildRows | app/repository.py:28-35 | the loop builds exactly `PlainRows` |
| AppRepository.InsertThreadAndMessages | app/repository.py:9-41 | the thread is inserted first, and a failed thread insert raises before any message insert; with no messages there is no second insert; otherwise the rows are appended or an insert error raises and leaves the messages unchanged |
| AppRepository.FetchThread | app/repository.py:44-73 | a store error raises; `.single()` fails unless exactly one thread has the id; otherwise the thread and its messages in `created_at` order are shaped into the result |
| AppRepository.StarFetchAgrees | app/repository.py:63-72 | for a stored thread this shaping gives the same dict as app/repository/query.py, `tags` defaulting to `[]` and messages in order |
| AppRepository.InsertThenFetch | app/repository.py:9-73 | a thread just inserted with a fresh id is found alone and reads back with its title, its time, `tags` `[]` and its messages in input order |
| AppRepository.ListWindow | app/repository.py:83 | the window starts at the offset and holds max(0, limit) rows |
| AppRepository.ListThreads | app/repository.py:76-88 | the owner's threads, newest first, in the window offset..offset+max(0,limit)-1 |
| AppRepository.ListPage | app/repository.py:78-85 | the page holds at most max(0, limit) of the owner's own threads, none when the limit is not positive |
| RootRepository.SearchWord | repository.py:131-133 | the content filter applies exactly when the search word is present and not empty |
| RootRepository.SearchOrder | repository.py:127 | the order is ascending exactly when `asc` is set |
| RootRepository.SearchMessagesByOwner | repository.py:108-138 | the messages whose joined thread belongs to the owner, filtered by the search word when there is one, in the requested order and the window offset..offset+max(0,limit)-1 |
| RootRepository.SearchPage | repository.py:121-133 | at most max(0, limit) results, each a stored message of one of the owner's threads whose content contains the search word ignoring case |
| RootRepository.SearchWithoutWord | repository.py:132-133 | without a search word every message of the owner's threads is a candidate |
| RootRepository.SearchIgnoresCase | repository.py:133 | `ilike` matches content equal to the word up to case |
| Percent.Encode | frontend/src/lib/auth.ts:22-24 | `encodeURIComponent` and `quote` leave only the characters each encoder keeps unescaped (`quote` also `/`, `encodeURIComponent` also `!*'()`), `%` and upper-case hex digits |
| Percent.EncodeChar | frontend/src/lib/auth.ts:22-24 | a character the encoder keeps unescaped (`Unescaped`) is kept as itself; any other is written as escapes that start with `%` and hold only `%` and upper-case hex digits |
| Percent.DecodeEncode | frontend/src/lib/auth.ts:16-24 | `decodeURIComponent` reads an encoded string back to the original, for either encoder |
| Percent.EncodeInjective | frontend/src/lib/auth.ts:22-24 | two strings with the same encoding are equal |
| Percent.EncodedHasNoSeparators | frontend/src/lib/auth.ts:22-24 | an encoded value holds no `&`, `=`, `;`, space or comma, so it cannot break a query or a cookie string |
| Percent.Utf8RoundTrip | frontend/src/lib/auth.ts:16-24 | the UTF-8 bytes of every character decode back to it |
| RestQuery.Quote | app/repository/thread.py:46 | a quoted filter value never holds `&` |
| RestQuery.QuoteReadsBack | app/repository/thread.py:46 | the server reads a quoted value back unchanged |
| RestQuery.QueryParts | app/repository/thread.py:58 | a query joined from parts without `&` splits back into exactly those parts |
| Config.ParseAppEnv | app/core/config.py:7-20 | a missing `APP_ENV` is `local`; a given one is accepted exactly when it is local, dev or prod, and keeps its name |
| Config.StripUrl | app/core/config.py:49-52 | `rstrip("/")` removes exactly the trailing slashes and nothing else |
| Config.StripUrlIdempotent | app/core/config.py:49-52 | stripping twice is stripping once |
| Config.Load | app/core/config.py:12-36 | settings load exactly when the URL and the anon key are set and `APP_ENV` is valid; the URL is stripped and the optional fields take their defaults |
| Config.CookieSecure | app/core/config.py:39-42 | the cookie is secure exactly in `prod` |
| Config.CookieSameSite | app/core/config.py:44-47 | samesite is `lax` exactly for local and dev, otherwise `none` |
| Config.SameSiteNoneIsSecure | app/core/config.py:39-47 | over the three environments, samesite `none` always comes with secure, and a cookie that is not secure is `lax` |
| Config.DefaultEnvironment | app/core/config.py:20 | without `APP_ENV` the environment is local, so lax and not secure |
| Security.RefreshCookie | app/core/security.py:8-19 | the cookie is `refresh_token` holding the token unchanged, httponly, path `/`, the configured domain, max-age 30 days with remember and 7 days without, secure exactly in prod and samesite lax except in prod |
| Security.ExpiredCookie | app/core/security.py:21-26 | clearing writes the same name, domain and path with max-age 0 and an empty value |
| Security.Store | app/core/security.py:8-26 | a browser keeps a cookie with a positive max-age under its name, domain and path, drops it for max-age 0, and leaves other cookies alone |
| Security.Response.SetRefreshCookie | app/core/security.py:8-19 | the response gains exactly the refresh cookie |
| Security.Response.ClearRefreshCookie | app/core/security.py:21-26 | the response gains exactly the expired cookie |
| Security.SameCookie | app/core/security.py:6-25 | setting and clearing address the same cookie: same name, domain and path |
| Security.SetStoresToken | app/core/security.py:8-19 | after setting, the browser holds the token under the refresh cookie and nothing else changes |
| Security.ClearRemovesToken | app/core/security.py:21-26 | after any sequence of cookies followed by clearing, the refresh cookie is gone and every other cookie is as before |
| Deps.GetAccessToken | app/db/deps.py:14-43 | no credentials or a scheme other than bearer (any case) is MISSING_ACCESS_TOKEN; blank credentials are EMPTY_ACCESS_TOKEN; otherwise the token is the stripped credentials, never empty |
| Deps.UserPayload | app/db/deps.py:68-83 | a verified user without a truthy id is INVALID_TOKEN_PAYLOAD; otherwise the result is exactly id, email and the raw payload |
| Deps.GetCurrentUser | app/db/deps.py:46-83 | exactly one verification request is sent when it can be built; a verification failure or a status other than 200 is INVALID_ACCESS_TOKEN; otherwise the payload is normalised by `UserPayload` |
| Prompt.LineOf | app/services/llm.py:25-37 | a role that strips and lowercases to `assistant` gives `Assistant: c`; every other role gives `User: c` |
| Prompt.BuildPrompt | app/services/llm.py:14-43 | the loop's prompt is the kept lines plus the closing `Assistant:` when needed, joined with newlines |
| Prompt.KeptLinesAppend | app/services/llm.py:23-37 | the kept lines of two runs of messages are the kept lines of each, in order |
| Prompt.KeptLinesOne | app/services/llm.py:26-37 | a message with blank content adds no line; any other adds its line |
| Prompt.KeptLinesCount | app/services/llm.py:23-37 | there is one line per message with content |
| Prompt.PromptEnds | app/services/llm.py:39-43 | the last line starts with `Assistant:`; the kept lines come first in order; `Assistant:` is added exactly when there is no line or the last one does not start with it |
| Prompt.BlankPrompt | app/services/llm.py:39-43 | messages that are all blank give exactly `Assistant:` |
| Supabase.Upstream.Send | app/db/supabase.py:105-155 | every HTTP call is recorded in order and answered by the upstream oracle |
| Supabase.GetEnv | app/db/supabase.py:21-26 | a setting reads as its stripped value, and as None when that is empty |
| Supabase.GetEnvIdempotent | app/db/supabase.py:21-26 | reading a read setting again changes nothing |
| Supabase.BaseUrl | app/db/supabase.py:29-33 | an unset or blank URL is a ConfigError; otherwise the stripped URL without trailing `/` |
| Supabase.BaseHeaders | app/db/supabase.py:36-40 | without the anon key a ConfigError; otherwise exactly `apikey` and the JSON content type |
| Supabase.AuthHeaders | app/db/supabase.py:99-100 | the base headers plus `Authorization: Bearer <token>`, failing exactly when they do |
| Supabase.RaiseForStatus | app/db/supabase.py:62 | a status 400..599 raises with that status; any other passes the reply through |
| Supabase.JsonBody | app/db/supabase.py:63 | a body that is JSON is returned, otherwise a ValueError |
| Supabase.CheckedJson | app/db/supabase.py:112-116 | the JSON of a reply that is not an error status |
| Supabase.InsertBody | app/db/supabase.py:105-109 | an error status raises; an empty body gives `{}`; otherwise the JSON |
| Supabase.DeleteCount | app/db/supabase.py:124-132 | the count is 0 for an empty body, the length of a list body, and 0 otherwise; it is positive only for a non-empty list |
| Supabase.SelectRequest | app/db/supabase.py:112-114 | a GET of `<base>/rest/v1/<table>?<query>` with the auth headers |
| Supabase.InsertRequest | app/db/supabase.py:105-107 | a POST of the rows to `<base>/rest/v1/<table>` with the auth headers |
| Supabase.DeleteRequest | app/db/supabase.py:119-122 | a DELETE of `<base>/rest/v1/<table>?<query>` asking for `return=representation` |
| Supabase.RestSelect | app/db/supabase.py:112-116 | one select is sent when it can be built, and its JSON checked |
| Supabase.RestInsert | app/db/supabase.py:105-109 | one insert is sent when it can be built, and its body read |
| Supabase.RestDelete | app/db/supabase.py:119-132 | one delete is sent when it can be built; an error status raises, otherwise the count |
| Supabase.GoogleExchangePayload | app/db/supabase.py:58-60 | the payload holds provider `google` and the id token, and `nonce` exactly when a non-empty one is given |
| Supabase.PkcePayload | app/db/supabase.py:68-70 | the payload holds the code and verifier, and `redirect_to` exactly when a non-empty one is given |
| Supabase.AuthPost | app/db/supabase.py:57-61 | a POST to `<base>/auth/v1/<path>` with the body, built exactly when URL and anon key are set; its headers are the base headers, plus `Authorization: Bearer <token>` exactly when a token is given |
| Supabase.LogoutSendsToken | app/db/supabase.py:92-96 | the logout request sends exactly the anon key, the JSON content type and the bearer token it revokes |
| Supabase.ExchangeGoogleIdToken | app/db/supabase.py:56-63 | one POST to the id-token grant with the Google payload, its JSON checked |
| Supabase.ExchangePkceCode | app/db/supabase.py:66-73 | one POST to the PKCE grant, its JSON checked |
| Supabase.RefreshWithToken | app/db/supabase.py:76-81 | one POST of the refresh token to the refresh grant, its JSON checked |
| Supabase.UserInfoRequest | app/db/supabase.py:84-86 | a GET of `/auth/v1/user` with the auth headers |
| Supabase.GetUserInfo | app/db/supabase.py:84-89 | one user-info request, its JSON checked |
| Supabase.Logout | app/db/supabase.py:92-96 | one POST to `/auth/v1/logout`; an error status raises |
| Supabase.VerifyKey | app/db/supabase.py:142 | the service-role key when it is set, otherwise the anon key |
| Supabase.VerifyRequest | app/db/supabase.py:141-147 | without URL a ConfigError, without any key a SupabaseAuthError, otherwise a GET of `/auth/v1/user` with exactly that key and the bearer token |
| Supabase.GetUserFromAccessToken | app/db/supabase.py:136-155 | one verification request; any status but 200 is a SupabaseAuthError; otherwise the JSON body |
| UserLookup.ServiceHeaders | app/db/supabase_users.py:10-17 | without a service-role key a RuntimeError; otherwise exactly `apikey` and `Authorization: Bearer` with that key, and the JSON content type |
| UserLookup.LookupRequest | app/db/supabase_users.py:27-30 | a GET of the admin users endpoint with the email as query, under the service headers |
| UserLookup.FirstMatchFinds | app/db/supabase_users.py:33-36 | the id of the first user whose email matches is returned, and None when no user matches |
| UserLookup.FirstMatchSound | app/db/supabase_users.py:33-36 | a returned id belongs to a user whose email matches |
| UserLookup.FirstMatchIgnoresCase | app/db/supabase_users.py:34 | emails equal up to case find the same user |
| UserLookup.GetUserIdByEmail | app/db/supabase_users.py:20-36 | an empty email gives None with no request; otherwise one request, an error status raises, and the loop returns the first match |
| ExtensionFiles.FilesQuery | app/repository/extension_files.py:18-24 | the query splits back into the `user_id` filter, the four columns and newest-first order |
| ExtensionFiles.FileRowsShape | app/repository/extension_files.py:34-42 | one entry per row in order, with exactly id, name, description and created_at, each the row's value, `name` defaulting to `""` |
| ExtensionFiles.ListExtensionFilesForUser | app/repository/extension_files.py:11-42 | an empty user id gives `[]` with no request; a 404 gives `[]`; other errors are raised; otherwise the mapped rows |
| AuthRepository.StrField | app/repository/auth.py:24-27 | a `str` response field accepts exactly a string |
| AuthRepository.OptStrField | app/repository/auth.py:28-33 | an optional `str` field accepts exactly null or a string |
| AuthRepository.AccessOf | app/repository/auth.py:19-21 | the access part holds the access token, `token_type` defaulting to `bearer` and `expires_in` defaulting to 3600, and exists exactly when those have the right types |
| AuthRepository.UserOf | app/repository/auth.py:22-33 | the user part takes id, email and created_at from `user` (or `{}`), and the provider from its `app_metadata`, defaulting to `google` |
| AuthRepository.ExchangeGoogle | app/repository/auth.py:9-43 | a missing refresh token is a 502 SUPABASE_EXCHANGE_FAILED; any other failure except an HTTPException becomes the same 502 with the error text; success returns the grant built from the payload, the clock reading and the refresh token |
| AuthRepository.ExchangeDefaults | app/repository/auth.py:19-33 | a payload with only the tokens and a user id gets token_type `bearer`, expires_in 3600 and provider `google` |
| AuthRepository.RefreshWithCookie | app/repository/auth.py:45-61 | every failure is 401 INVALID_REFRESH_TOKEN; success holds the access part and the new refresh token or None |
| AuthRepository.MetaOf | app/repository/auth.py:64-75 | without identities meta is None; otherwise it has exactly name and avatar_url |
| AuthRepository.CurrentUserProfile | app/repository/auth.py:63-76 | the profile holds the payload's id and email and the meta of its identities |
| AuthRepository.ProfileShowsIdentity | app/repository/auth.py:66-71 | with identities, meta is the first identity's name and avatar_url |
| AuthRepository.RevokeIfPossible | app/repository/auth.py:78-84 | no request for a missing or empty token; otherwise one logout request and its failure is swallowed |
| AuthRepository.SignupWithPassword | app/repository/auth.py:117-150 | no user is a ValueError; upstream failures pass through; success returns exactly the five keys, with access_token and token_type null exactly when there is no session |
| AuthRoutes.GoogleExchange | app/routes/auth.py:31-35 | an id token shorter than 10 characters is a 422 and nothing is sent; otherwise one exchange request, and on success the refresh cookie is set with `remember=False` and the grant returned; a failure sets no cookie |
| AuthRoutes.MeAsWritten | app/routes/auth.py:38-40 | as written: the profile carries the id of the user it is given, and no `meta` when that user has no truthy `identities`, which the normalised user never has |
| AuthRoutes.MeNeverShowsMeta | app/routes/auth.py:38-40 | as written, the profile endpoint never shows a `meta`, whatever the auth service reports |
| AuthRoutes.MeDropsIdentity | app/routes/auth.py:38-40 | a user with a named identity: the service's record gives a meta with the name, the endpoint's answer has none |
| AuthRoutes.Me | app/routes/auth.py:38-40 | corrected: reads the service's record under `raw`, so the profile carries that record's id and its identities' meta |
| AuthRoutes.MeShowsServiceRecord | app/routes/auth.py:38-40 | the corrected endpoint answers the profile of the service's own record, with meta None exactly when it has no identities |
| AuthRoutes.Refresh | app/routes/auth.py:43-55 | without a non-empty `refresh_token` cookie a 401 INVALID_REFRESH_TOKEN and nothing sent; otherwise one refresh request, and the cookie is re-set exactly when a new refresh token comes back |
| AuthRoutes.LogoutToken | app/routes/auth.py:60-62 | a token is taken exactly when the lowercased header starts with `bearer `, and it is the text after the first space |
| AuthRoutes.Logout | app/routes/auth.py:58-65 | the answer is always `{"ok": true}` and the cookie is always cleared; a revoke request is sent only for a non-empty token |
| AuthRoutes.LoginRequest | app/routes/auth.py:80-96 | the request is built exactly when URL and anon key are set: a POST to the password grant with the anon key as apikey and bearer, and the email and password |
| AuthRoutes.LoginData | app/routes/auth.py:101-104 | the data is the JSON body, or `{"raw": text}` when the body is not JSON |
| AuthRoutes.LoginWithPassword | app/routes/auth.py:73-109 | missing settings are a 500 with nothing sent; otherwise one request, a status of 400 or more is relayed with the same status and data, and any other returns the data |
| AuthRoutes.Signup | app/routes/auth.py:112-120 | an invalid body is a 422; a ValueError becomes 400 with its message; any other failure 500 "signup failed: ..."; success passes the result through |
| AuthRoutes.SignupWithoutUser | app/routes/auth.py:117-118 | a sign-up that returns no user answers 400 "Supabase sign_up failed" |
| ThreadRoutes.OwnerOf | app/routes/thread.py:25-27 | the owner is the user's id exactly when it is a non-empty string |
| ThreadRoutes.PagesReachStore | app/routes/thread.py:45-47 | the default pages pass their bounds, and an order that passes `^(asc\|desc)$` reaches the store unchanged |
| ThreadRoutes.Drafts | app/routes/thread.py:29-32 | one draft per body message, in order, with its role and content |
| ThreadRoutes.CreateAnswer | app/routes/thread.py:29-38 | success answers the new id with status `saved`; any other failure is a 500 "Internal Server Error: ..." carrying the error text |
| ThreadRoutes.ListAnswer | app/routes/thread.py:61-68 | success answers exactly `{"threads": rows}`; any other failure is 500 DB_QUERY_FAILED |
| ThreadRoutes.DeleteAnswer | app/routes/thread.py:82-99 | a count of 0 is 404 NOT_FOUND, a positive count answers `{"ok": true}`, any other failure 500 DB_DELETE_FAILED |
| ThreadRoutes.DetailAnswer | app/routes/thread.py:113-128 | an empty detail is 404 NOT_FOUND; a non-empty one is returned as it is; any other failure 500 DB_FETCH_FAILED |
| ThreadRoutes.MessagesAnswer | app/routes/thread.py:152-161 | a thread that is not owned is 404 NOT_FOUND; otherwise exactly `{"messages": rows}`; any other failure 500 DB_FETCH_FAILED |
| ThreadRoutes.AddAnswer | app/routes/thread.py:187-199 | not owned is 404; success answers thread_id, added_count and status `saved`; a ValueError is 422 VALIDATION_ERROR with its message; any other failure 500 DB_INSERT_FAILED |
| ThreadRoutes.FailuresStayPrivate | app/routes/thread.py:62-68 | the fixed 500 answers do not depend on which failure happened, while the create endpoint shows the failure's text |
| ThreadRoutes.CreateThread | app/routes/thread.py:18-38 | without an owner 401 and nothing sent; otherwise the repository's requests and its answer mapped by `CreateAnswer` |
| ThreadRoutes.GetThreads | app/routes/thread.py:41-68 | a page outside limit 1..100, offset ≥ 0 or order asc/desc is 422 with nothing sent; then without an owner 401; otherwise the listing mapped by `ListAnswer` |
| ThreadRoutes.DeleteThread | app/routes/thread.py:71-99 | an id shorter than 10 is 422; without an owner 401; otherwise the delete mapped by `DeleteAnswer` |
| ThreadRoutes.GetThreadById | app/routes/thread.py:102-128 | an id shorter than 10 is 422; without an owner 401; otherwise the detail mapped by `DetailAnswer` |
| ThreadRoutes.DetailNotFoundWhenNoRow | app/routes/thread.py:113-119 | the endpoint answers 404 exactly when the select found no row, and otherwise the detail |
| ThreadRoutes.GetThreadMessages | app/routes/thread.py:130-161 | a bad id or a page outside limit 1..200, offset ≥ 0 or order asc/desc is 422; without an owner 401 UNAUTHORIZED; otherwise the page mapped by `MessagesAnswer` |
| ThreadRoutes.AddMessages | app/routes/thread.py:163-199 | a bad id is 422; without an owner 401 UNAUTHORIZED; a blank message is 422 VALIDATION_ERROR before any request; otherwise the addition mapped by `AddAnswer` |
| ThreadRoutes.AddCheckSuffices | app/routes/thread.py:176-185 | once the route's own check has passed the repository's content check cannot fail |
| ThreadRoutes.AddedCountIsMessages | app/routes/thread.py:191 | the added count answered is the number of messages in the body |
| ApiClient.ApiBase | frontend/src/lib/api.ts:3-4 | a non-empty `NEXT_PUBLIC_API_BASE_URL` is the base; an absent or empty one gives `http://127.0.0.1:8000` |
| ApiClient.BuildUrl | frontend/src/lib/api.ts:6-16 | an absolute URL is kept; any other path grows by the base and at most one `/` |
| ApiClient.BuildUrlShape | frontend/src/lib/api.ts:6-16 | an absolute path is the URL itself; any other path follows the base, behind exactly one added `/` when it has none of its own |
| ApiClient.BuildUrlIdempotent | frontend/src/lib/api.ts:6-16 | with an absolute base, building the URL of a built URL changes nothing |
| ApiClient.FirstTruthy | frontend/src/lib/api.ts:23-29 | the message is a truthy field read under one of the given keys, or the fallback |
| ApiClient.ErrorMessage | frontend/src/lib/api.ts:18-33 | a falsy payload gives the fallback, a non-empty string gives itself, an object's truthy `detail` is taken first, and a boolean or number gives the fallback |
| ApiClient.ErrorMessageOfObject | frontend/src/lib/api.ts:22-30 | on an object the keys are tried in the order `detail`, `message`, `error`, `msg`, and the fallback comes last |
| ApiClient.ErrorMessageOfArray | frontend/src/lib/api.ts:22-30 | an array passes the `typeof` test as an object but has none of the keys, so it gives the fallback |
| ApiClient.JsString | frontend/src/lib/api.ts:75 | `String()` of a string is the string, of an object `[object Object]` |
| ApiClient.ThrownAsWritten | frontend/src/lib/api.ts:70-76 | when the message read is a string, the thrown error's text is that string |
| ApiClient.CodedDetailUnreadable | frontend/src/lib/api.ts:70-76 | the services' coded detail `{code, message}`, and a list of validation errors, reach the caller as `[object Object]` |
| ApiClient.ErrorText | frontend/src/lib/api.ts:70-76 | agrees with the code as written whenever the message read is a string |
| ApiClient.ServiceErrorsReadable | frontend/src/lib/api.ts:70-76 | with the correction, a coded detail reaches the caller as its message and a text detail as its text, as it does as written |
| ApiClient.Appended | frontend/src/lib/api.ts:41 | appending to `Headers` adds the lower-cased name, joins a repeated name's values with `, `, and leaves the other names alone |
| ApiClient.CombinedNames | frontend/src/lib/api.ts:41 | the headers built from the caller's pairs have a name exactly when some pair has it, in any case |
| ApiClient.Headers.constructor | frontend/src/lib/api.ts:41 | `new Headers(init)` holds the caller's pairs combined in order |
| ApiClient.Headers.Has | frontend/src/lib/api.ts:44-48 | `has` asks for the name in any case |
| ApiClient.Headers.Set | frontend/src/lib/api.ts:45-49 | `set` makes the value the name's only one and changes no other name |
| ApiClient.Prepared | frontend/src/lib/api.ts:41-50 | every header the caller gave is sent with the value the caller gave |
| ApiClient.PreparedHeaders | frontend/src/lib/api.ts:41-50 | the caller's headers are sent as given; `Content-Type: application/json` is added exactly when the caller gave none and there is a body, `Authorization: Bearer <token>` exactly when there is a token and the caller gave none; nothing else is added |
| ApiClient.Outgoing | frontend/src/lib/api.ts:35-52 | the request goes to the built URL and carries the caller's body unchanged |
| ApiClient.Body | frontend/src/lib/api.ts:61-68 | an empty body reads as `null`, JSON as the parsed value, and any other text as itself |
| ApiClient.Fallback | frontend/src/lib/api.ts:73-73 | the fallback message is never empty and is the status text whenever there is one |
| ApiClient.Settle | frontend/src/lib/api.ts:52-78 | as written: a network failure rejects with its message or the fixed network-failure message; an answer resolves exactly when its status is from 200 to 299, to the parsed body, and otherwise rejects with the extracted message if it is a string and `String()` of it otherwise |
| ApiClient.SettleCorrected | frontend/src/lib/api.ts:70-76 | corrected: a failed answer rejects with the corrected error text; successes and network failures settle as written |
| ApiClient.SettleAgrees | frontend/src/lib/api.ts:70-76 | the corrected settlement equals the one as written whenever the extracted message is a string |
| ApiClient.CodedErrorSettles | frontend/src/lib/api.ts:70-76 | as written: a failed answer whose body is a coded detail of the service rejects with `[object Object]` |
| ApiClient.ServiceErrorSettles | frontend/src/lib/api.ts:70-76 | corrected: a failed answer whose body is the service's detail rejects with the service's message; a plain-text detail does so as written too |
| ApiClient.EmptyErrorSettles | frontend/src/lib/api.ts:70-76 | a failed answer without a body rejects with the status text, or the fixed "request failed" message when there is none, as written and corrected alike |
| ApiClient.ApiFetch | frontend/src/lib/api.ts:35-79 | a token that cannot be read rejects before anything is sent; otherwise the request sent is the prepared one and the promise settles as written (Settle), a coded detail included |
| BrowserAuth.KeysOk | frontend/src/lib/auth.ts:1-2 | the two keys are distinct names a cookie can carry |
| BrowserAuth.LookupPut | frontend/src/lib/auth.ts:22-24 | after a cookie is stored, its name reads its new value and every other name reads as before |
| BrowserAuth.LookupWithout | frontend/src/lib/auth.ts:29 | after a cookie is expired, its name reads nothing and every other name reads as before |
| BrowserAuth.Segments | frontend/src/lib/auth.ts:11-13 | one trimmed segment per `;`-separated piece of the cookie string, in order |
| BrowserAuth.FirstWith | frontend/src/lib/auth.ts:14 | `find` gives the first segment with the prefix, and none before it has it |
| BrowserAuth.DecodeComponent | frontend/src/lib/auth.ts:16 | decoding succeeds exactly when every escape is well formed, and otherwise throws the URIError |
| BrowserAuth.SegmentsOfJar | frontend/src/lib/auth.ts:11-13 | the trimmed segments of a page's cookie string are its cookies' `name=value` pairs |
| BrowserAuth.FindPair | frontend/src/lib/auth.ts:14 | the pair found for a name is the cookie of that name, and none is found exactly when there is no such cookie |
| BrowserAuth.GetCookie | frontend/src/lib/auth.ts:9-17 | without a document there is no cookie; a value is found only when some trimmed segment starts with `name=` |
| BrowserAuth.ReadJar | frontend/src/lib/auth.ts:9-17 | `getCookie` reads the decoded value, up to its first `=`, of the cookie of that name, and nothing when there is none |
| BrowserAuth.Assign | frontend/src/lib/auth.ts:19-30 | a string assigned to `document.cookie` that does not parse as a cookie changes nothing |
| BrowserAuth.SetCookieHeader | frontend/src/lib/auth.ts:19-25 | the assigned string starts with `name=` (ParseOwn reads back the encoded value and the lifetime) |
| BrowserAuth.ClearCookieHeader | frontend/src/lib/auth.ts:27-30 | the assigned string is `name=` followed by `; max-age=0; path=/` |
| BrowserAuth.AssignOk | frontend/src/lib/auth.ts:22-29 | whatever string is assigned to `document.cookie`, the page keeps well-formed cookies, one per name |
| BrowserAuth.ParseOwn | frontend/src/lib/auth.ts:22-24 | the browser reads the helpers' own strings back as the name, the value and the lifetime they wrote |
| BrowserAuth.SetStores | frontend/src/lib/auth.ts:19-25 | `setCookie` with a positive lifetime stores the encoded value under the name |
| BrowserAuth.ClearRemoves | frontend/src/lib/auth.ts:27-30 | `clearCookie` removes the cookie of that name |
| BrowserAuth.ReadEncoded | frontend/src/lib/auth.ts:16-24 | decoding the stored encoding gives back the value that was encoded, even when it holds `=` |
| BrowserAuth.SetThenGet | frontend/src/lib/auth.ts:9-25 | after `setCookie(name, value)`, `getCookie(name)` gives the value, and every other cookie reads as before |
| BrowserAuth.ClearThenGet | frontend/src/lib/auth.ts:9-30 | after `clearCookie(name)`, `getCookie(name)` gives nothing, and every other cookie reads as before |
| BrowserAuth.ReadToken | frontend/src/lib/auth.ts:33-38 | outside a browser nothing is read; a non-empty stored value is returned before the cookie is looked at |
| BrowserAuth.StoredRead | frontend/src/lib/auth.ts:33-38 | in a browser the token read is the truthy stored value, and the cookie's otherwise |
| BrowserAuth.SetTokenThenGet | frontend/src/lib/auth.ts:33-46 | after `setToken(t)`, `getToken` gives `t`, the empty token included, and the refresh token reads as before |
| BrowserAuth.SessionThenGet | frontend/src/lib/auth.ts:33-64 | after `setSession`, `getToken` gives the access token; a truthy refresh token is read back by `getRefreshToken`, and without one the refresh token reads as before |
| BrowserAuth.ClearThenGetNothing | frontend/src/lib/auth.ts:33-74 | after `clear()`, neither token can be read, from storage or from the cookies |
| BrowserAuth.TokenStore.constructor | frontend/src/lib/auth.ts:4-7 | the store is the page's storage and cookies, and whether there is a page |
| BrowserAuth.TokenStore.DocumentCookie | frontend/src/lib/auth.ts:10-11 | there is a cookie string exactly when there is a page |
| BrowserAuth.TokenStore.GetItem | frontend/src/lib/auth.ts:34-35 | an item is read exactly when there is a page and the item is stored |
| BrowserAuth.TokenStore.AssignCookie | frontend/src/lib/auth.ts:22-29 | an assignment to `document.cookie` updates the cookies as the browser does, keeps them well formed, and leaves storage alone |
| BrowserAuth.TokenStore.SetCookie | frontend/src/lib/auth.ts:19-25 | without a page nothing changes; with one, the cookie string is assigned and storage is left alone |
| BrowserAuth.TokenStore.ClearCookie | frontend/src/lib/auth.ts:27-30 | without a page nothing changes; with one, the expiring string is assigned and storage is left alone |
| BrowserAuth.TokenStore.Get | frontend/src/lib/auth.ts:33-38 | the token read is the one the store's state determines, the stored value first and the cookie otherwise |
| BrowserAuth.TokenStore.GetToken | frontend/src/lib/auth.ts:33-38 | `getToken` reads the access key |
| BrowserAuth.TokenStore.GetRefreshToken | frontend/src/lib/auth.ts:59-64 | `getRefreshToken` reads the refresh key |
| BrowserAuth.TokenStore.SetToken | frontend/src/lib/auth.ts:40-46 | in a browser the access token is stored and its cookie set for seven days; with no page nothing changes |
| BrowserAuth.TokenStore.SetSession | frontend/src/lib/auth.ts:48-57 | the access token as `setToken`; the refresh token is stored and set only when it is truthy |
| BrowserAuth.TokenStore.Clear | frontend/src/lib/auth.ts:66-74 | in a browser both items are removed and both cookies expired; with no page nothing changes |

## Left out

- The hosted service. `Store.Database` and `Supabase.Upstream` stand for it, and what they do is an assumption: its ordering, its windows, its refusals and its row-level security are not derived from anything in the repository.
- Store.Database: a store error is taken to come back on the response, where the `getattr(r, "error", None)` checks of app/repository/query.py and app/repository.py see it. If the client is supabase-py v2, `execute()` instead raises `postgrest.APIError` for every error reply, `.single()` with zero or several rows included. Under that client the guarded branches are never reached. The first such branch is the RuntimeError that QueryRepository.InsertThread, QueryRepository.InsertMessages, QueryRepository.FetchThreadSelecting, QueryRepository.ListThreads, AppRepository.InsertThreadAndMessages, AppRepository.FetchThread and AppRepository.ListThreads promise on a store error. The second is the not-found error of the two `fetch_thread` functions after Store.Single finds no row. The third is QueryRepository.LastIndex reading -1 after a failed select: an `insert_messages` with no messages and a failing messages table is `Ok([])` here, where that client would raise the APIError of the select unchanged.
- Cascading deletes and row-level security are the service's concern. The model deletes only the rows the query names.
- Column defaults for `messages.created_at` and `messages.index` are unknown. A row inserted without them holds `None`.
- Concurrency. Two `insert_messages` calls that read the same last index are not modelled. The store takes one call at a time.
- Identifiers, clocks and the network are parameters: `uuid4()`, `datetime.now()`, the HTTP replies, `fetch` and `JSON.parse`. So are the outcomes of the supabase-py auth calls `get_supabase`, `sign_up` and the insert responses.
- Supabase.Upstream: every request gets a reply, so a transport failure cannot happen in the model. The source sets time-outs (`requests` with 15 s in app/db/supabase.py and 10 s in app/db/supabase_users.py, `httpx` with 10 s in app/db/supabase.py and 15 s in app/routes/auth.py). A `Timeout` or `ConnectionError` raised there is not modelled. It would escape every handler below that catches only the service's own errors. In particular it escapes Supabase.GetUserFromAccessToken, and with it `get_current_user`, as a 500 rather than a 401. It also escapes AuthRoutes.LoginWithPassword as a 500.
- Settings are read from parameters. Where environment variables and `.env` files come from is not modelled, and neither is pydantic-settings' own parsing.
- Config.Load: environment keys are matched by exact case, while pydantic-settings' `BaseSettings` matches them case-insensitively by default and app/core/config.py does not set `case_sensitive`; `supabase_url` would be read there and is not here.
- FastAPI and pydantic plumbing:
  - the routes receive the current user already resolved;
  - `HTTPBearer` is modelled from its parsed scheme and credentials, and the parsing of the raw header is not modelled;
  - FastAPI's 422 body for a failed validation is a fixed detail, and its list of errors is not modelled;
  - `response_model` validation of the answers is not modelled.
- `ThreadCreate`, `ThreadCreateResp`, `ThreadsListResp`, `ThreadDetailResp`, `MessagesResp`, `AddMessagesBody` and `AddMessagesResp` are imported by the thread routes but defined nowhere in the repository. The routes take the parsed title and messages directly.
- `EmailStr` validation of e-mail addresses is not modelled. Addresses are plain strings.
- `signup_with_email_password` (app/repository/auth.py:90-112) is defined but called by nothing, and is not modelled. `signup_with_password` is.
- Everything in `app/main.py` except `_normalize_payload` and `_b64url_decode`. The file holds unresolved merge-conflict markers, so only these named functions are modelled. Base64 decoding itself is left out; the alphabet and padding step is modelled.
- Floating point. JSON numbers are integers, so `int()` of a float and float-valued indices are outside the model.
- Text.Lower: lower-cases ASCII letters only, where Python's `lower()` and JavaScript's `toLowerCase()` also fold other letters.
- Text.ParseInt: Python's `int()` also accepts `_` between digits and non-ASCII decimal digits, which the model refuses.
- JsonValue.PyStr: renders a non-empty list or dict by a placeholder. The model keeps only what the source relies on: the rendering is not blank and is none of the role names.
- Store.ContainsFolded: `ilike` is modelled on ASCII case. The search word's own `%` and `_` wildcards are taken literally.
- ThreadRoutes.OwnerOf: treats a truthy `id` that is not a string as missing. The auth service always reports a string id.
- The prompt builder takes each message's role and content as a string or missing. A truthy value of another type, on which `.strip()` raises AttributeError, is outside the model.
- Security.ExpiredCookie: uses Starlette's defaults for `delete_cookie`, so not secure, not HttpOnly and SameSite lax. The `expires` date is modelled as a lifetime of zero.
- ApiClient.Headers.Set: the names are not validated, so the TypeError for an invalid name is left out. Values are not normalised beyond what `apiFetch` sets.
- ApiClient.ApiFetch: `init.headers` is taken as name-value pairs and the body as a string. The other `RequestInit` options are passed through to `fetch` untouched and are not modelled.
- BrowserAuth.Assign: models the cookies the page can see at path `/` on its own host. Other paths and domains, `HttpOnly`, `Expires` dates and expiry over time are left out. A string with an empty name is ignored.
- Text.Trim: trims all of JavaScript's white space. A browser trims only space and tab when it parses a cookie string, so the two can differ on cookies holding other white space. The helpers never write such cookies.
- The React pages, the Next.js proxy routes, the diagnostic endpoints, `app/modification/query.py` and the commented-out or pure-delegation modules are not part of this model.

## Findings

| source | as written | input that shows it | evidently intended | confidence | as-written member | corrected member |
|---|---|---|---|---|---|---|
| app/repository/query.py:64-67 | two adjacent string literals in the select list are joined with no comma, giving `...created_atmessages(role,content,created_at)` | any call of `fetch_thread` | a comma between `created_at` and the embedded `messages(...)` | not executed | QueryRepository.GluedSelect | QueryRepository.FetchThread |
| app/routes/auth.py:38-40 | `/auth/me` passes the normalised user `{id, email, raw}` to `current_user_profile`, which looks for a top-level `identities` that the normalised user never has | a user whose record has `identities[0].identity_data.name == "Kim"`: the answer's `meta` is `None` | the profile of the service's record under `raw`, with the identity's name and avatar | not executed | AuthRoutes.MeNeverShowsMeta | AuthRoutes.MeShowsServiceRecord |
| frontend/src/lib/api.ts:70-76 | an error detail that is an object is turned into text by `String()`, and the thread routes answer `{"detail": {"code", "message"}}` | a 404 whose body is `{"detail": {"code": "NOT_FOUND", "message": "Thread not found"}}` is thrown as `[object Object]` | the detail's `message` reaches the caller | not executed | ApiClient.CodedErrorSettles | ApiClient.ServiceErrorSettles |
