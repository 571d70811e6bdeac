# Asset list handler: a Dafny model

This project models the `GET /api/assets?platform=<p>&arch=<a>` handler of the
blockgame website worker (`src/router.js`). The handler serves a JSON list of the
downloadable native-library files for one platform variant. It works like this:

- It validates the query. `platform` and `arch` must both be non-empty, and
  `platform-arch` must be one of `windows-x64`, `windows-x86`, `linux-x64`, `macos-arm64`.
- It looks for a cached list at `libs/<platform>-<arch>.json` in the object store.
- On a hit it returns the stored body with `Cache-Control: public, max-age=3600`.
- On a miss it lists `libs/common/` and `libs/<platform>-<arch>/`, concatenates the two
  listings, drops the entries without a usable key and the pseudo-directory keys ending
  in `/`, and turns each key into `{name, url}`. It then serialises the list, stores it at
  the cache path, and returns it without Cache-Control.
- Any store failure becomes a 500 with the body `{"error":"Internal Server Error"}`.

Modules, one per concern of the handler:

- `Wrappers`: `Option` (for JavaScript `null`/`undefined`) and `Result` (a store call that
  returns or throws).
- `Paths`: `key.split('/').pop()`, as `Split`/`Join` on '/'-separated paths.
- `Request`: query validation, the allow-list, the cache path and the two listing prefixes.
- `Assets`: the pure `[...common, ...native].filter(...).map(...)` pipeline.
- `Json`: `JSON.stringify` of the record list, with the ECMAScript string escapes.
- `ObjectStore`: the store bound as `BLOCKGAME_ASSETS`. It is a `Store` class with these
  fields:
  - `entries: map<path, Entry>`, read by `get` and written by `put`;
  - `listings`, the reply `list` gives per prefix;
  - `faults`, the set of calls that throw;
  - a ghost log of the calls made.
- `Router`: `Handle`, a function giving the response, new objects and store calls of one
  request, and `HandleAssets`, the imperative handler on a `Store`, proved equal to `Handle`.
  The lemmas about `Handle` state the handler's behaviour.
- `Scenarios`: two example requests worked through the model, a windows-x64 miss
  and a rejected linux-x86 request.

Two points of the handler's behaviour that are easy to misread:

- An empty `platform` or `arch` is rejected like a missing one, because JavaScript
  treats `""` as falsy (src/router.js:15).
- The comment at src/router.js:29 says a cached entry may be a string (KV) or an object
  with a body (R2), but line 36 reads only `cached.body`. So the model has one kind of
  entry, whose body is returned unchanged.

## Model

| member | source | states |
|---|---|---|
| Request.Validate | src/router.js:9-20 | an accepted request's variant key is always one of the four allow-listed keys |
| Request.AcceptedIff | src/router.js:9-22 | a request is accepted iff `platform` and `arch` are present and form one of the pairs windows/x64, windows/x86, linux/x64, macos/arm64; the accepted key is then `platform + "-" + arch` |
| Request.PairOfValidKey | src/router.js:13-15 | non-empty parts whose `platform-arch` is allow-listed can only be one of the four pairs (the split at '-' is unique) |
| Request.ValidKeyOfPair | src/router.js:13-15 | each of the four pairs has non-empty parts and forms an allow-listed key |
| Request.JsonPath | src/router.js:22-23 | the cache path is `libs/`, then the variant key, then `.json` |
| Request.VariantPrefix | src/router.js:44 | the variant listing prefix is `libs/`, then the variant key, then `/` |
| Request.JsonPathInjective | src/router.js:23 | distinct variant keys have distinct cache paths |
| Request.CachePathNotListed | src/router.js:22-44 | an allow-listed variant's cache file lies under neither `libs/common/` nor any variant prefix, so it is never listed as an asset |
| Paths.Split | src/router.js:58 | `split('/')` yields at least one segment, and no segment contains '/' |
| Paths.JoinSplit | src/router.js:58 | joining the segments with '/' gives the key back |
| Paths.NameIsLastSegment | src/router.js:58 | the name is a '/'-free suffix of the key that is the whole key or follows a '/'; it is non-empty when the key is non-empty and does not end in '/' |
| Paths.NameUnique | src/router.js:58 | any '/'-free suffix of the key that is the whole key or follows a '/' is the name, so the name is exactly the text after the last '/' |
| Assets.Files | src/router.js:54-56 | the filter keeps only descriptors with a non-empty key not ending in '/', keeps every such descriptor, and never lengthens the list |
| Assets.FilesAppend | src/router.js:52-56 | filtering the concatenation equals concatenating the filtered listings |
| Assets.FilesLength | src/router.js:54-56 | the filtered list has exactly one element per file descriptor |
| Assets.ToAssetDescribes | src/router.js:57-60 | a record's name is a non-empty '/'-free suffix of its key that follows the key's last '/'; its url is the base URL followed by the full key, and the key can be recovered from the url |
| Assets.ToAssets | src/router.js:57-61 | the map yields one record per file descriptor, at the same position |
| Assets.ToAssetsAppend | src/router.js:57-61 | mapping the concatenation equals concatenating the mapped parts |
| Assets.BuildAssetListOrder | src/router.js:47-61 | the common listing's records come first, then the variant listing's, each in listing order; a listing without `objects` contributes nothing |
| Assets.BuildAssetListRecords | src/router.js:52-61 | there is one record per file descriptor of the combined listing, and the i-th record describes the key of the i-th file descriptor |
| Assets.BuildAssetListComplete | src/router.js:52-61 | every file descriptor of either listing yields its record in the list |
| Assets.BuildAssetListSound | src/router.js:52-61 | every record in the list comes from a file descriptor of one of the two listings |
| Json.UnescapeEscape | src/router.js:63 | the string escaping used by `JSON.stringify` can be decoded back to the original |
| Json.EscapeInjective | src/router.js:63 | distinct strings get distinct JSON string literals |
| Json.EscapePlain | src/router.js:63 | strings without quotes, backslashes or control characters appear verbatim |
| Json.Serialize | src/router.js:63 | the body is a JSON array, `[` to `]`, and it is `[]` exactly for the empty list |
| Json.RecordPlain | src/router.js:63 | a record whose name and url need no escaping is written `{"name":"<name>","url":"<url>"}` with both fields verbatim |
| Json.SerializePair | src/router.js:63 | a two-record list is written as the two records, comma-separated, between `[` and `]` |
| ObjectStore.GetReply | src/router.js:26 | `get` throws iff that call is set to fail; otherwise it returns the stored entry iff the path is stored |
| ObjectStore.ListReply | src/router.js:42-45 | `list` throws iff that call is set to fail; a prefix the backend has no reply for lists nothing |
| ObjectStore.PutReply | src/router.js:65 | `put` throws iff that call is set to fail; otherwise the path holds the JSON body and every other path is unchanged |
| ObjectStore.Store.Get | src/router.js:26 | returns the `get` reply for the current objects and logs the call |
| ObjectStore.Store.List | src/router.js:43-44 | returns the `list` reply for the prefix and logs the call |
| ObjectStore.Store.Put | src/router.js:65 | on success the objects become the `put` result; on failure they are unchanged; the call is logged |
| Router.HandleAssets | src/router.js:5-75 | running the handler on the store gives exactly the response, objects and call sequence `Handle` describes; listings and faults are untouched |
| Router.RejectedIff | src/router.js:15-20 | the status is 400 iff the request is not accepted; a rejected request gets the fixed error body, makes no store call and changes nothing |
| Router.CacheHit | src/router.js:26-37 | on a hit the response is 200 with the stored body unchanged and `Cache-Control: public, max-age=3600`, after a single `get`, with no list and no put |
| Router.CacheMiss | src/router.js:39-67 | on a miss without failures the response is 200 with the serialised generated list and no Cache-Control; the cache path then holds that body, all other paths are unchanged, and the calls are get, list common, list variant, put |
| Router.ServerErrorIff | src/router.js:68-74 | the status is 500 iff the request is accepted and a store call it makes fails; the body is then the generic error and the objects are unchanged |
| Router.FailedPutHidesList | src/router.js:63-74 | when `put` fails, the response is 500 and its body is not the generated list |
| Router.ResponseShape | src/router.js:15-73 | every response has status 200, 400 or 500 and is JSON; Cache-Control is present only on a 200 served from the cache |
| Router.OnlyCachePathWritten | src/router.js:65 | a request changes no object other than its own cache file |
| Router.RepeatIsHit | src/router.js:26-67 | repeating a successful request with nothing else changing the store is a hit: status 200, the cached response for the entry the first request left at the cache path, the same body, `Cache-Control`, one `get` and no write |
| Scenarios.WindowsAssets | src/router.js:52-61 | common `a.so`, then variant `b.dll` plus the directory key `libs/windows-x64/`, build exactly the records for `a.so` and `b.dll`, in that order |
| Scenarios.WindowsMiss | src/router.js:39-67 | with nothing cached, windows/x64 returns the serialised list for those two records and stores the same body at `libs/windows-x64.json` |
| Scenarios.LinuxX86Rejected | src/router.js:13-20 | linux/x86 is rejected with 400 although each part is valid in another pair |

## Left out

- The routing library and the Worker `Response`/`Headers` objects are left out because
  they are foreign code. A response is reduced to status, body, Content-Type and an
  optional Cache-Control value.
- Parsing a raw `req.url` with `new URL(...).searchParams` is a library call. The query is
  given as a map from parameter name to string.
- The stream behind `cached.body` is not modelled. A stored entry has a body that the hit
  path returns unchanged.
- `Promise.all` concurrency is not modelled. The two listings run one after the other on
  a store that does not change in between. Both are issued before either result is
  inspected. Races between concurrent requests writing the same cache file are out of scope.
- The `console.log` and `console.error` lines carry no behaviour and are left out.
- Store failures come from a fixed set of failing calls, not from I/O. A failing `put` is
  taken to leave the objects unchanged.
- A `list` reply is whatever the backend returns for that prefix. It is not derived from
  the stored objects, and R2's paging of large listings is not modelled. The handler reads
  only the reply it gets.
- A `null` entry in a listing behaves like a descriptor without a key: both are dropped.
  The model has only the latter.
- Json.Serialize: models `JSON.stringify` for this record shape only. `Unescape` decodes
  only the escapes `Escape` emits; it is not a general JSON parser.
- Lone UTF-16 surrogates, which `JSON.stringify` writes as `\u` escapes, cannot occur:
  Dafny characters are Unicode scalar values.
