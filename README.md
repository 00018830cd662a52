# hi-nginx request dispatch and caching engine, in Dafny

This project models the core of the hi-nginx content module
(`ngx_http_hi_module/ngx_http_hi_module.cpp`) and proves properties of the model.
The core is the code that turns an nginx request into a `hi::request`, answers
from a per-location LRU+TTL response cache when it can, and otherwise runs
exactly one backend. The backend is a native servlet module, Python, Lua or a
PHP servlet class. The core also bridges a Redis-held session and hands the
`hi::response` back to nginx.

Modules, one per part of the source:

- `Base` (`base.dfy`): `Option`, bytes, 16-byte digests, header pairs, and `size_t` wrap-around.
- `Hex` (`hex.dfy`): the hex rendering of an MD5 digest, as used by `md5` and `ngx_hex_dump`.
- `Names` (`names.dfy`): `find_last_of` and `substr` with `npos` arithmetic, the upload extension, `random_string`, the upload path and the PHP class name.
- `Headers` (`headers.dfy`): the input-header loop over nginx's list parts (`m[key] = v`, last wins), the output-header loop, `std::map::insert` (first wins) and multimap `find`.
- `Body` (`body.dfy`): `get_input_body` and the urlencoded content-type test.
- `Lru` (`lru.dfy`): the response cache as a class with `exists`, `get`, `put` and `erase`.
- `Session` (`session.dfy`): the Redis client as a class with a connection flag, hashes and expiry settings.
- `Config` (`config.dfy`): the location configuration, `create_loc_conf` and the value half of `merge_loc_conf`, plus backend selection.
- `Worker` (`worker.dfy`): the process-wide registries (`PLUGIN`, `CACHE`, `REDIS`, engines) as a class, and the registry half of `merge_loc_conf`.
- `Host` (`host.dfy`): `hi::request`, `hi::response`, what nginx holds for a request, and the environment. The environment is every call into code that is not part of this model, each written as a total function.
- `Ingest` (`ingest.dfy`): building the request, including the body, uploads and cookies.
- `Backend` (`backend.dfy`): the dispatch switch and the four backend handlers.
- `Pipeline` (`pipeline.dfy`): `ngx_http_hi_normal_handler`, split at the source's own stages.
- `Entry` (`entry.dfy`): `ngx_http_hi_handler` and `ngx_http_hi_body_handler`, a two-phase request task.

The merge runs its backend tests in sequence, and each later test overwrites
the earlier result, so the effective priority is PHP > Lua > Python > native
module > none (`Config.SelectApp`).

Undefined behaviour in the source is modelled as an explicit outcome
(`Pipeline.Outcome.Undefined`), never as a precondition:

- reading `user_agent` when nginx has none (line 471);
- reading `content_type` when a body arrives without one (line 479);
- `headers.find("Content-Type")->second` when the response has no such header (lines 459 and 557).

## Model

| member | source | states |
|---|---|---|
| Base.SizeTIsModulo | ngx_http_hi_module/ngx_http_hi_module.cpp:797-799 | the `size_t` arithmetic used for the class-name offsets is arithmetic modulo 2^64 |
| Hex.DigitsTable | ngx_http_hi_module/ngx_http_hi_module.cpp:741 | the lookup table maps each nibble 0..15 to its lower-case hex digit |
| Hex.Encode | ngx_http_hi_module/ngx_http_hi_module.cpp:740-748 | the rendering has two characters per byte, and every character is a lower-case hex digit |
| Hex.EncodeAt | ngx_http_hi_module/ngx_http_hi_module.cpp:743-746 | character 2k is the high nibble of byte k and character 2k+1 its low nibble |
| Hex.DecodeEncode | ngx_http_hi_module/ngx_http_hi_module.cpp:740-748 | reading the hex text back pairwise gives the digest again (round trip) |
| Hex.EncodeInjective | ngx_http_hi_module/ngx_http_hi_module.cpp:740-748 | different digests never render to the same text |
| Hex.DigestText | ngx_http_hi_module/ngx_http_hi_module.cpp:748 | a 16-byte digest always renders to exactly 32 hex characters |
| Hex.HexDump | ngx_http_hi_module/ngx_http_hi_module.cpp:740-748 | the byte loop over the digest produces exactly the reference rendering |
| Names.FindLastOf | ngx_http_hi_module/ngx_http_hi_module.cpp:497 | `find_last_of` is npos exactly when the character is absent; otherwise it is a position holding the character, with none after it |
| Names.Substr | ngx_http_hi_module/ngx_http_hi_module.cpp:499 | `substr` throws exactly when the start is past the end; otherwise it returns the slice from the start, clipped to the end of the string |
| Names.ExtShape | ngx_http_hi_module/ngx_http_hi_module.cpp:496-500 | the extension is empty exactly when there is no dot; otherwise it is a dot followed by dot-free text, and it ends the name |
| Names.StemExt | ngx_http_hi_module/ngx_http_hi_module.cpp:797-799 | a name is its stem followed by its extension |
| Names.SplitAtLastDot | ngx_http_hi_module/ngx_http_hi_module.cpp:497-499 | stem and extension split the name at the position `find_last_of('.')` reports |
| Names.SegmentAfterSlash | ngx_http_hi_module/ngx_http_hi_module.cpp:797 | the last path segment is the text after the position `find_last_of('/')` reports, or the whole uri |
| Names.UploadExtensionIsExt | ngx_http_hi_module/ngx_http_hi_module.cpp:496-500 | the upload extension is the suffix from the last dot inclusive, or empty when there is no dot |
| Names.UploadExtension | ngx_http_hi_module/ngx_http_hi_module.cpp:496-500 | the kept extension is empty exactly when the file name has no dot; otherwise it starts with a dot and holds no other dot |
| Names.RandomString | ngx_http_hi_module/ngx_http_hi_module.cpp:751-755 | the random string is 32 lower-case hex characters |
| Names.UploadPath | ngx_http_hi_module/ngx_http_hi_module.cpp:501 | an upload path is `temp/`, then 32 hex characters, then the kept extension, and its length is 37 plus the extension's |
| Names.UploadPathShape | ngx_http_hi_module/ngx_http_hi_module.cpp:501 | an upload path is `temp/`, then the hex digest of client, file name and `ctime` text, then the extension; its length is 37 plus the extension's |
| Names.UploadPathCollision | ngx_http_hi_module/ngx_http_hi_module.cpp:751-755 | two uploads of the same file name from the same client get the same path when the clock renders to the same `ctime` text |
| Names.LastOfIsUnique | ngx_http_hi_module/ngx_http_hi_module.cpp:797 | a position holding the character, with none after it, is what `find_last_of` returns |
| Names.ClassNameDotInSegment | ngx_http_hi_module/ngx_http_hi_module.cpp:797-799 | with the last dot after the last slash, the class name is the segment without its extension |
| Names.ClassNameBetween | ngx_http_hi_module/ngx_http_hi_module.cpp:799 | with the last dot after the last slash, the class name is the text strictly between them |
| Names.SegmentStemBetween | ngx_http_hi_module/ngx_http_hi_module.cpp:797 | with the last dot after the last slash, the stem of the last segment is the text between them |
| Names.StemUpToDot | ngx_http_hi_module/ngx_http_hi_module.cpp:797 | the stem of a suffix ends at the last dot |
| Names.ClassNameNoDotInSegment | ngx_http_hi_module/ngx_http_hi_module.cpp:797-799 | with no dot after the last slash, the wrapped count clips to the end, and the class name is the whole last segment |
| Names.ClassNameNoSlash | ngx_http_hi_module/ngx_http_hi_module.cpp:797-799 | with no slash, `p + 1` wraps to 0 and `q - 1 - p` wraps to `q` (or to npos), so the class name is the uri's stem |
| Names.SlashAndDotDiffer | ngx_http_hi_module/ngx_http_hi_module.cpp:797 | the last slash and the last dot are never at the same position |
| Names.ClassNameIsStem | ngx_http_hi_module/ngx_http_hi_module.cpp:797-799 | for every uri the class name never throws, and it is the last path segment without its extension |
| Names.ClassName | ngx_http_hi_module/ngx_http_hi_module.cpp:797-799 | the `substr` computing the class name never throws for a uri shorter than npos, and the name is no longer than the uri |
| Headers.AssignedKeys | ngx_http_hi_module/ngx_http_hi_module.cpp:606-623 | the request-header map has exactly the keys of the header list |
| Headers.LastWins | ngx_http_hi_module/ngx_http_hi_module.cpp:621 | a repeated request header keeps the value of its last occurrence |
| Headers.InsertedKeeps | ngx_http_hi_module/ngx_http_hi_module.cpp:494 | `insert` never replaces or removes an entry already in the form |
| Headers.FirstWins | ngx_http_hi_module/ngx_http_hi_module.cpp:503 | a key new to the form takes the value of its first inserted pair |
| Headers.InsertedAbsent | ngx_http_hi_module/ngx_http_hi_module.cpp:494 | a key no inserted pair carries keeps its presence and value |
| Headers.InsertedKeepsAll | ngx_http_hi_module/ngx_http_hi_module.cpp:821-823 | inserting the servlet's session pairs keeps every key the session held, with its value |
| Headers.InsertedFrom | ngx_http_hi_module/ngx_http_hi_module.cpp:821-823 | a key the session did not hold before inserting comes from one of the inserted pairs |
| Headers.InputHeaders | ngx_http_hi_module/ngx_http_hi_module.cpp:606-623 | the loop over the list parts builds exactly the assigned map of the flattened list |
| Headers.OutputHeaders | ngx_http_hi_module/ngx_http_hi_module.cpp:625-637 | every response header pair is pushed after the existing output headers, duplicates included (same multiset) |
| Headers.FindFirst | ngx_http_hi_module/ngx_http_hi_module.cpp:557 | `find` is `end()` exactly when no header has the key; otherwise it is the first header with the key |
| Headers.ValueOf | ngx_http_hi_module/ngx_http_hi_module.cpp:557 | reading `find(key)->second` is undefined exactly when no header has the key; otherwise it is the value of a header with the key |
| Headers.SetValue | ngx_http_hi_module/ngx_http_hi_module.cpp:459 | overwriting `find(key)->second` changes only that header, after which the key reads the new value; it is undefined when the key is absent |
| Headers.FindFirstStable | ngx_http_hi_module/ngx_http_hi_module.cpp:459 | overwriting the value of the found header does not move `find` |
| Body.LaterBuffersIgnored | ngx_http_hi_module/ngx_http_hi_module.cpp:656-683 | only the first two buffers of a chain reach the body, and its length is theirs |
| Body.CopyInto | ngx_http_hi_module/ngx_http_hi_module.cpp:666-677 | `ngx_cpymem`/`ngx_memcpy` place the source at the offset and leave the rest of the buffer as it was |
| Body.GetInputBody | ngx_http_hi_module/ngx_http_hi_module.cpp:639-685 | the body is empty without buffers, the file name for a spooled body, and otherwise one buffer or the first two concatenated |
| Body.LowerAscii | ngx_http_hi_module/ngx_http_hi_module.cpp:480 | case folding maps exactly `A`-`Z` to `a`-`z` and keeps every other character |
| Body.UrlEncodedByPrefix | ngx_http_hi_module/ngx_http_hi_module.cpp:479-481 | the urlencoded test looks only at the first 33 characters, so parameters after the type do not change it |
| Body.ShortTypeIsMultipart | ngx_http_hi_module/ngx_http_hi_module.cpp:479 | a content type shorter than the urlencoded name always goes to the multipart parser |
| Lru.LruCache.Exists | ngx_http_hi_module/ngx_http_hi_module.cpp:452 | `exists` is key membership |
| Lru.LruCache.Get | ngx_http_hi_module/ngx_http_hi_module.cpp:453 | `get` returns the stored entry |
| Lru.LruCache.Put | ngx_http_hi_module/ngx_http_hi_module.cpp:560 | `put` stores the entry (unless capacity is 0) and adds no other key; it leaves the other survivors unchanged, evicts at most one entry and respects the capacity |
| Lru.LruCache.Erase | ngx_http_hi_module/ngx_http_hi_module.cpp:456 | `erase` removes exactly that key and keeps the cache within capacity |
| Lru.PutIgnoresPrior | ngx_http_hi_module/ngx_http_hi_module.cpp:456-560 | what `put` may leave behind does not depend on whether the key was there before |
| Session.SessionStore.Connect | ngx_http_hi_module/ngx_http_hi_module.cpp:528-530 | connecting sets the flag to whether the server answered and changes no data |
| Session.SessionStore.Exists | ngx_http_hi_module/ngx_http_hi_module.cpp:533 | EXISTS is key membership in the store |
| Session.SessionStore.HSet | ngx_http_hi_module/ngx_http_hi_module.cpp:534 | HSET sets one field of the hash, creating it if needed, and touches nothing else |
| Session.SessionStore.Expire | ngx_http_hi_module/ngx_http_hi_module.cpp:535 | EXPIRE records the time-to-live of an existing key |
| Session.SessionStore.HGetAll | ngx_http_hi_module/ngx_http_hi_module.cpp:538 | HGETALL returns the whole hash, or nothing for an unknown id |
| Session.SessionStore.HMSet | ngx_http_hi_module/ngx_http_hi_module.cpp:563 | HMSET sets every given field and keeps the hash's other fields |
| Config.Created | ngx_http_hi_module/ngx_http_hi_module.cpp:292-323 | a new location has every inherited field unset and no module index, no cache index and no backend |
| Config.Inherit | ngx_http_hi_module/ngx_http_hi_module.cpp:329-346 | after the merge every inherited field has a value and the indices and backend are not inherited; with flag directives holding 0 or 1 (what the flag setter stores), every merged flag is 0 or 1 and sessions on means cookie parsing on (`needCookies == 1`) |
| Config.InheritPrecedence | ngx_http_hi_module/ngx_http_hi_module.cpp:329-345 | for each of the fourteen inherited fields: a value the location set wins, an unset one takes the parent's, and otherwise the default; the cookie flag is forced on when sessions are on |
| Config.InheritDefaults | ngx_http_hi_module/ngx_http_hi_module.cpp:329-342 | with nothing set anywhere: empty strings for every script, content and Redis host setting, port 0, cache size 10, cache and session expiry 300, headers off, cache on, cookies and sessions off |
| Config.InheritIdempotent | ngx_http_hi_module/ngx_http_hi_module.cpp:329-346 | merging twice with the same parent changes nothing |
| Config.NearestSettingWins | ngx_http_hi_module/ngx_http_hi_module.cpp:329-346 | across two levels of merging, every inherited field takes the nearest level that set it, else the default; cookies are on when the nearest setting says so or sessions forced them on at either level |
| Config.SelectApp | ngx_http_hi_module/ngx_http_hi_module.cpp:347-378 | the backend is PHP if a PHP script is set, else Lua, else Python, else native when a module is newly registered, else unchanged |
| Worker.FitsAfterGrowth | ngx_http_hi_module/ngx_http_hi_module.cpp:347-385 | registries only grow, so a location whose indices were valid stays valid |
| Worker.Worker.FindPlugin | ngx_http_hi_module/ngx_http_hi_module.cpp:351-358 | the counting loop finds the path exactly when it is registered, at its first position |
| Worker.Worker.RegisterModule | ngx_http_hi_module/ngx_http_hi_module.cpp:350-363 | a registered path keeps its index and the registry is unchanged; a new path is appended once and gets index \|PLUGIN\|-1; no duplicate ever enters |
| Worker.Worker.AddCache | ngx_http_hi_module/ngx_http_hi_module.cpp:382-385 | one new empty cache of the location's size is appended, and its index is \|CACHE\|-1 |
| Worker.Worker.MergeLocConf | ngx_http_hi_module/ngx_http_hi_module.cpp:325-389 | the merged location has the inherited values and the selected backend; a native location gets the registered index of its module and a caching location exactly one new cache; the PHP engine is started for PHP; registries only grow; a location fresh from creation fits the registries afterwards |
| Ingest.IngestFields | ngx_http_hi_module/ngx_http_hi_module.cpp:490-505 | the field loop inserts each text field's text and each file's upload path, with existing names kept, and renames every file, in field order |
| Ingest.UploadFieldValue | ngx_http_hi_module/ngx_http_hi_module.cpp:492-504 | a new form name maps to its text, or to `temp/` followed by the 32-digit hex digest of client, file name and time text, then the extension |
| Ingest.AbsentCookieSkipped | ngx_http_hi_module/ngx_http_hi_module.cpp:519-521 | a `Cookie` header with no value contributes nothing to the cookie map |
| Ingest.ParseCookies | ngx_http_hi_module/ngx_http_hi_module.cpp:516-523 | the cookie loop parses each present header in turn with `;` as separator |
| Ingest.ReadRequest | ngx_http_hi_module/ngx_http_hi_module.cpp:465-523 | the request is built as the reference definition says: headers, method, client, user agent, query and body parameters, uploads and cookies; a missing user agent or content type, or a multipart failure, stops building |
| Ingest.ParseFailureStops | ngx_http_hi_module/ngx_http_hi_module.cpp:507-511 | a multipart parser exception ends building with the parser's message |
| Ingest.NoBodyNoUploads | ngx_http_hi_module/ngx_http_hi_module.cpp:475 | without a body the form holds only the query parameters and no file is renamed |
| Ingest.BodyForm | ngx_http_hi_module/ngx_http_hi_module.cpp:477-515 | without a body the form is as given; a body without a content type is undefined; only a multipart body with the temporary directory present can fail (with the parser's message) or rename files; a non-urlencoded body without the directory leaves the form unchanged |
| Ingest.BuildRequest | ngx_http_hi_module/ngx_http_hi_module.cpp:465-523 | building stops exactly on a missing user agent or a body without a content type; an upload failure carries the parser's message; a built request carries the uri, query, method, client and user agent, no headers or cookies unless asked for, an empty session, and the form and renames the body gives |
| Backend.Dispatch | ngx_http_hi_module/ngx_http_hi_module.cpp:542-552 | exactly the configured call is made, or none; the Python and Lua engines are started on first use; no registry changes |
| Backend.CallFor | ngx_http_hi_module/ngx_http_hi_module.cpp:542-552 | no call exactly when there is no backend, the Python or Lua location has neither script nor code, or the PHP file under the uri is missing; otherwise the call goes to the configured engine: the registered module for native, and for PHP the base path plus uri with the class named after the last segment's stem |
| Backend.PhpApply | ngx_http_hi_module/ngx_http_hi_module.cpp:805-834 | a servlet that ran appends its headers, inserts its session pairs without replacing existing keys, and replaces content and status; a missing class or method leaves the response; a fault gives status 500 and the fault page, nothing else changed |
| Backend.PhpFaultContained | ngx_http_hi_module/ngx_http_hi_module.cpp:765-834 | a PHP location always returns a response, and a PHP fault gives status 500 with the fixed fault page |
| Backend.PhpServletNamed | ngx_http_hi_module/ngx_http_hi_module.cpp:763-802 | the PHP call runs the base script path followed by the uri, with the class named after the uri's last segment without its extension |
| Backend.ScriptBeforeInline | ngx_http_hi_module/ngx_http_hi_module.cpp:706-709 | for Python and for Lua separately: with a script set, the call is the script followed by the uri; with no script but inline code, the call runs that code |
| Backend.NoBackendNoCall | ngx_http_hi_module/ngx_http_hi_module.cpp:551 | a location without a backend makes no call and keeps the fresh response |
| Pipeline.CacheKey | ngx_http_hi_module/ngx_http_hi_module.cpp:430-450 | the key is the hex digest of the uri, followed by `?` and the query only when there is a query |
| Pipeline.CacheKeyShape | ngx_http_hi_module/ngx_http_hi_module.cpp:445-450 | a key is 32 lower-case hex digits that decode back to the digest of the key text |
| Pipeline.Initial | ngx_http_hi_module/ngx_http_hi_module.cpp:421-431 | the response before the cache is status 200, empty content and session, the fresh headers, and one `Last-Modified` header exactly on a caching location |
| Pipeline.QuestionMarkAt | ngx_http_hi_module/ngx_http_hi_module.cpp:432-435 | in a key text built from a uri without `?`, the first `?` is where the query starts |
| Pipeline.KeyTextSeparates | ngx_http_hi_module/ngx_http_hi_module.cpp:432-435 | for uris without `?`, different uri/query pairs give different key texts |
| Pipeline.KeyTextCollision | ngx_http_hi_module/ngx_http_hi_module.cpp:432-450 | for every uri and query, the request whose decoded uri is `uri?query` with no query gets the same key text and the same cache key as the split one |
| Pipeline.Lookup | ngx_http_hi_module/ngx_http_hi_module.cpp:452-462 | a fresh entry is returned and the cache left alone; a stale one is erased; a miss changes nothing |
| Pipeline.Assemble | ngx_http_hi_module/ngx_http_hi_module.cpp:566-599 | nginx gets the response status, the existing output headers then every response header, and a content length equal to the content's |
| Pipeline.HitServesStored | ngx_http_hi_module/ngx_http_hi_module.cpp:457-461 | a hit is answered with exactly the stored status, content, content length and content type |
| Pipeline.HitOutcome | ngx_http_hi_module/ngx_http_hi_module.cpp:457-461 | a hit is undefined exactly when the response has no Content-Type header to overwrite; otherwise it sends the stored status and content with its length |
| Pipeline.Persist | ngx_http_hi_module/ngx_http_hi_module.cpp:554-561 | the response is put under the key with the current time, its status, content and first Content-Type; without that header nothing is stored |
| Pipeline.RepeatWithinExpiry | ngx_http_hi_module/ngx_http_hi_module.cpp:452-461 | a stored response is a fresh hit for a repeat of the request within the expiry window, unless the cache has no room at all |
| Pipeline.SessionIn | ngx_http_hi_module/ngx_http_hi_module.cpp:524-541 | the store and the session the request gets are those of the opening rule: used only with sessions on and a session cookie; once connected, an unknown id is seeded with `{SESSIONID: id}` and given its expiry, a known id's record is loaded; unconnected, nothing changes |
| Pipeline.SessionOut | ngx_http_hi_module/ngx_http_hi_module.cpp:562-564 | the store after write-back is the closing rule's: the response's whole session map is merged in only when connected, the id is non-empty and the map is non-empty |
| Pipeline.Probe | ngx_http_hi_module/ngx_http_hi_module.cpp:414-462 | If-Modified-Since within the expiry gives 304 without touching the cache; a fresh hit is answered from the cache; otherwise the stale entry is gone and the request goes on |
| Pipeline.Serve | ngx_http_hi_module/ngx_http_hi_module.cpp:465-599 | the output, the store and the cache change are those of the reference effect: a missing user agent or content type is undefined, a multipart failure answers 500 with the message, otherwise the request runs; a built request makes exactly its one call and its renames, the response being the backend's reply |
| Pipeline.Run | ngx_http_hi_module/ngx_http_hi_module.cpp:524-599 | the output, the store and the cache change are those of the reference effect: the session opened, the backend's reply, then write-back and output; a reply that returned is the response sent |
| Pipeline.Invoke | ngx_http_hi_module/ngx_http_hi_module.cpp:524-552 | opening the session leaves the store and the session id of the opening rule, and the reply is the configured backend's reply to the request carrying the opened session |
| Pipeline.Finish | ngx_http_hi_module/ngx_http_hi_module.cpp:554-599 | the output, the store and the cache change are those of the reference effect: a 200 on a caching location with positive expiry is stored with its Content-Type (undefined without one), the session is closed under its id, the response is emitted |
| Pipeline.NormalHandler | ngx_http_hi_module/ngx_http_hi_module.cpp:410-600 | the output, the store and the cache change are those of the whole-request reference definition; on a miss with a built request exactly its one call is made and the response is the backend's reply, otherwise no call and no rename |
| Pipeline.ExpectedOnMiss | ngx_http_hi_module/ngx_http_hi_module.cpp:452-599 | after a miss the whole request's effect is the serving effect, with the stale entry counted as erased on a caching location |
| Pipeline.CacheAfterMiss | ngx_http_hi_module/ngx_http_hi_module.cpp:456-560 | erasing the stale entry and then storing or keeping composes into one cache change relative to the cache before the request |
| Pipeline.NotModifiedFirst | ngx_http_hi_module/ngx_http_hi_module.cpp:414-418 | a client copy within the expiry gets 304 with the store and cache unchanged, whatever else the request holds |
| Pipeline.HitAnswers | ngx_http_hi_module/ngx_http_hi_module.cpp:452-461 | a fresh hit is answered from the stored entry with the store and cache unchanged |
| Pipeline.UploadFailureAnswered | ngx_http_hi_module/ngx_http_hi_module.cpp:507-511 | a multipart failure answers 500 with the parser's message, leaves the store alone and only erases a stale entry |
| Pipeline.BackendAnswers | ngx_http_hi_module/ngx_http_hi_module.cpp:524-599 | a backend fault escapes with the opened store; a returned response is sent and its session written back; storing a response without Content-Type is undefined; a stored entry is the 200 response with the current time and its Content-Type; nothing else is stored |
| Pipeline.StoredIsSent | ngx_http_hi_module/ngx_http_hi_module.cpp:554-599 | whatever is stored is a 200 on a caching location, and it is also what is sent, with the same content and Content-Type |
| Pipeline.SessionlessStoreKept | ngx_http_hi_module/ngx_http_hi_module.cpp:524-564 | a location without sessions never changes the session store |
| Pipeline.PhpNeverUnhandled | ngx_http_hi_module/ngx_http_hi_module.cpp:762-836 | a PHP location never lets a fault escape the request |
| Entry.RequestTask.Enter | ngx_http_hi_module/ngx_http_hi_module.cpp:391-408 | with a body: the body buffer is raised to the maximum body size, an nginx error status is passed on, otherwise the request waits, and nothing of the worker changes; without one: the request is finished with the whole-request effect on output, store and cache |
| Entry.RequestTask.ReadBody | ngx_http_hi_module/ngx_http_hi_module.cpp:394-406 | the body buffer is raised to the maximum body size; a special response nginx returns finishes the request with that status, otherwise it waits |
| Entry.RequestTask.Complete | ngx_http_hi_module/ngx_http_hi_module.cpp:406 | the handler runs once and the request is finished with its outcome, which is the whole-request effect |
| Entry.RequestTask.Handle | ngx_http_hi_module/ngx_http_hi_module.cpp:406 | the handler on a request has the whole-request effect on output, store and cache |
| Entry.RequestTask.OnBody | ngx_http_hi_module/ngx_http_hi_module.cpp:602-604 | the body is put on the request and the request is finished with the whole-request effect on output, store and cache |

## Left out

- nginx transport: reading the body, discarding it, sending headers and the output filter are not modelled, and neither are allocation failures (`ngx_palloc`, `ngx_pcalloc`, `ngx_pnalloc`, `ngx_list_push`) or a failed `ngx_http_send_header`. The model keeps the status, the headers, the content and a content length equal to `|content|`.
- Allocation failure inside `get_input_body` (an empty body) is not modelled.
- MD5 itself is a parameter (`Env.md5`), as are `ctime`, `ngx_http_parse_time`, `hi::parser_param` and the MPFD multipart parser. `ngx_strncasecmp` is written out as an ASCII-folding prefix test.
- Clock: one `now` stands for every `time(NULL)` read during a request. The source reads the clock three times on its own path (line 415 for If-Modified-Since, line 454 for the staleness of a hit, line 559 for the cache put) and once more for every uploaded file, in `random_string` (line 752, called from line 501), so the number of reads has no bound. Readings that differ are not captured. In particular, two uploads of the same file name from the same client in one request always get the same path in the model (`Names.UploadPathCollision`), while in the source they can differ when the clock moves between them. `difftime` is integer subtraction.
- The LRU container is not part of this model. Which entry a full cache evicts, and recency updates on `get`, are left open (any other entry may go).
- Lru.LruCache.Put: does not state which entry is evicted, because the LRU order is not visible in this code.
- The Redis client is not part of this model. Its data is a map of hashes plus recorded expiry settings; keys never expire, and there is no network failure after connecting. An HMSET with no fields is taken to write nothing.
- `REDIS` is created at worker start in the model, not lazily; a client that was never created behaves like one that never connected.
- Backends are parameters: `Env.run` gives the effect of the native, Python and Lua calls on the response, and `Env.runPhp` that of the PHP servlet. This covers the `make_obj` factory returning null, the engines' interiors, PHP object creation and `methodExists`.
- A PHP fault is modelled as happening before any header or session entry is copied, so partial copies are left out. A fault in the other backends escapes as `Unhandled`, and what the worker does then is left out.
- The order of `std::unordered_map` and `std::unordered_multimap` iteration is taken as sequence order. Response headers and PHP arrays are sequences, and `find` on the multimap is taken to return the first pair with the key.
- Filesystem effects are inputs or outputs: whether the temporary directory exists or can be created (`is_dir`/`mkdir`), whether the PHP script exists (`access`), and the renames of uploaded files, which are returned as a list.
- Names.ClassName: requires the uri to be shorter than `npos`, which nginx guarantees in practice.
- The directive table, the module descriptors (lines 118-272), `clean_up`, `ngx_http_hi_conf_init` and the string, number, flag and size setters that fill the configuration are static registration data and are not part of this model.
- nginx's merge of a location that sets no directives, and a second merge of the same configuration, are modelled only through `Config.InheritIdempotent` and the `Unindexed` condition.
- Worker.Worker.MergeLocConf: the PHP engine is a flag, and constructing it is not modelled.
- Host.NewResponse: a fresh `hi::response` is taken to have status 200, empty content, no session and the environment's initial headers. `include/response.hpp` is not part of this model. This choice decides whether a response from a location without a backend, or from a servlet that declined, is cached as a 200.
- Strings are byte strings, one `char` per byte, without any encoding. Every length the model computes counts bytes: the content length sent to nginx (line 590) and the 33-byte prefix of the urlencoded test (line 479).
