# cclink.io link shortener — a Dafny model

The service is one Cloudflare Worker (`worker.js`). It maps short path
segments to target URLs in a KV namespace bound as `LINKS`, guarded by a
pre-shared key bound as `SECRET_KEY`:

- `POST /` with the header `x-preshared-key` and the form fields `url` and
  `path` stores `path -> url` (overwriting) and answers 201 with the short URL;
- `DELETE /<path>` with the key removes the link (200), or answers 404;
- any other method on `/<path>` redirects (302) to the stored target, or 404;
- any other method on `/` lists all keys, one per line, for the key holder,
  and redirects everyone else to an "apex" URL cut out of the request URL by a
  regex: the scheme, then whatever lies between the first `.` after the scheme
  and the last `/` (for `https://go.example.com/` the host without its
  leftmost label), and throws when there is none (`http://localhost/`) or
  when the apex does not parse.

Layout:

- `wrappers.dfy` — `Option`.
- `text.dfy` — `split` on one character, its inverse `Join`, first and last
  occurrence of a character.
- `routing.dfy` — the expression-only decisions: method dispatch, the key
  check, JavaScript truthiness of a form field, `pathname.split('/')[1]`, and
  the apex regex of line 74 computed as a string function.
- `protocol.dfy` — the request, response and outcome datatypes; each handler
  as a function from the table before the request to its answer and the table
  after it; the lemmas the protocol promises (auth gate, validation, upsert,
  idempotence, delete lifecycle, resolve, listing, the table invariant).
- `kv.dfy` — class `Namespace`, the `LINKS` binding: a `map` field and the
  order `list()` enumerates keys in, updated in place by `Put` and `Delete`.
- `worker.dfy` — class `Worker` holding the three bindings, with the fetch
  listener and the three handlers as methods that call the namespace step by
  step (the listing built by a loop, as the `forEach` does); each is proved to
  answer and leave the table exactly as its function in `protocol.dfy` says.
  `LinkLifecycle` is a client that creates, follows, deletes and follows a
  link using only those contracts.

Modelling choices:

- The WHATWG URL parser (`new URL(s)`) is the parameter `urlParses: string ->
  bool`, given to the worker with the secret and the namespace. The request
  arrives with its URL already parsed: `href` (the serialized URL) and
  `pathname`. The Workers runtime only hands over http and https URLs
  (`HttpScheme`).
- A response is `Plain(status, body)`, `Redirect(location)` (always 302), or
  `Fault` for an exception the handler lets escape: the failed apex match
  (`host` is `null`, so `host[1]` throws), `new URL(host[1]+host[3])` rejecting
  the apex, and `Response.redirect` rejecting a stored target. Under the table
  invariant the last never happens (`ResolveRedirects`).
- The table invariant `WellFormed`: every stored target is non-empty and
  parses. `Worker.Valid()` carries it; every handler keeps it.
- The apex regex `/(http[s]?:\/\/)?([^.]*)\.(.*)\//` on an http(s) URL always
  matches group 1 at the start when it matches at all; `[^.]*` then runs to the
  first `.` after the scheme and the greedy `(.*)` to the last `/`. `Apex`
  computes exactly that. For `https://go.example.com/` it gives
  `https://example.com`. It fails only when no `.` after the scheme is
  followed later by a `/` (`ApexAbsent`); the query counts too, so a `.` or a
  `/` in a root visit's query ends up in the apex:
  `http://localhost/?u=a.b/c` gives `http://b`, and
  `https://go.example.com/?r=/x` gives `https://example.com/?r=` (the instances
  `ApexStripsLabel("http://", "localhost/?u=a", "b", "c")` and
  `ApexStripsLabel("https://", "go", "example.com/?r=", "x")`).
- The 201 body is the whole request URL (`${shortener}`) followed by `path`,
  not only the scheme and host of the request: a create posted to `/x` answers
  with `.../x` followed by `path` (`Create`, `CreateStores`).
- The delete handler tests `LINKS.get(path) == null`, so it looks only at
  presence (`path !in links`), while the resolve handler tests truthiness and
  so also answers 404 for a stored empty string. The model keeps both tests.
- A `path` form field is not checked: it may contain `/` or a newline. Such a
  key is stored, but since `FirstSegment` never contains `/` no request can
  resolve or delete it, and a newline in a key breaks the one-key-per-line
  reading of the listing (`ListingLines` requires its absence). Since the
  pathname a request carries is percent-encoded and has its dot segments
  resolved before it is split, a `path` holding a space, non-ASCII text, `?`,
  `#` or `\`, or equal to `.` or `..`, is likewise stored but never resolved or
  deleted.

## Model

| member | source | states |
|---|---|---|
| `Text.Split` | worker.js:57 | `split` always yields at least one piece and no piece contains the separator |
| `Text.JoinSplit` | worker.js:57 | splitting loses nothing: joining the pieces with the separator gives the string back |
| `Text.SplitJoin` | worker.js:80-81 | pieces without the separator, joined and split again, are given back in order |
| `Routing.FirstSegment` | worker.js:73 | the first path segment never contains `/` |
| `Routing.FirstSegmentBetweenSlashes` | worker.js:57 | for a pathname `before/segment` followed by nothing or by `/...`, with no `/` in `before` or `segment`, the first segment is `segment` |
| `Routing.FirstSegmentWithoutSlash` | worker.js:58 | a pathname with no `/` has the empty first segment (the `undefined` of `split('/')[1]`), which the handlers treat as no path |
| `Routing.Route` | worker.js:4-11 | the `switch` on the method (no ensures of its own); its promise is stated over whole requests by `DispatchByMethod` |
| `Routing.Authorized` | worker.js:19-20 | `psk === SECRET_KEY` with a missing header never equal (no ensures of its own); its effect is stated by `CreateRejectsBadKey`, `DeleteRejectsBadKey`, `OnlyAuthorizedWrites`, `ListingOnRoot` and `AnonymousRootIgnoresTable` |
| `Routing.Present` | worker.js:28 | JavaScript truthiness of a form field: present and non-empty (no ensures of its own); its effect is stated by `CreateRejectsMissingField` and `CreateStores` |
| `Routing.Apex` | worker.js:74 | a found apex starts with the request's scheme and is at least two characters shorter than the URL (the `.` and the `/` are dropped); exact value in `ApexStripsLabel`, absence in `ApexAbsent` |
| `Routing.ApexAfterScheme` | worker.js:74 | groups 2 and 3 of the regex after the scheme: a result exists only when the rest holds a `.` and a `/`, and it keeps the scheme as prefix |
| `Routing.ApexStripsLabel` | worker.js:74-85 | for `scheme://before.mid/tail` with no `.` in `before` and no `/` in `tail`, the apex is `scheme://mid`: the scheme, then what lies between the first `.` after it and the last `/` (the host without its leftmost label when the URL is `scheme://host/`) |
| `Routing.ApexAbsent` | worker.js:74 | when no `.` after the scheme is followed by a `/`, the regex does not match |
| `Protocol.WellFormed` | worker.js:28-41 | the table invariant: every stored target is non-empty and parses (a predicate, no ensures); kept by `HandlePreservesWellFormed` and `Handlers.Worker.Valid` |
| `Protocol.Create` | worker.js:18-45 | `handlePOST` answers 201, 400 or 403; any answer but 201 leaves the table unchanged; a 201 adds exactly the key `path`, whose target is non-empty and parses; branch by branch in `CreateRejectsBadKey`, `CreateRejectsMissingField`, `CreateRejectsInvalidUrl`, `CreateStores` |
| `Protocol.Delete` | worker.js:51-62 | `handleDELETE` answers 200, 403 or 404; any answer but 200 leaves the table unchanged; a 200 removes exactly the first segment, which was present; branch by branch in `DeleteRejectsBadKey`, `DeleteRejectsEmptyPath`, `DeleteRejectsUnknownPath`, `DeleteRemoves` |
| `Protocol.ListingBody` | worker.js:80-81 | the listing is empty exactly when there are no keys and otherwise ends in a newline; exact shape in `ListingIsJoin` and `ListingLines` |
| `Protocol.Resolve` | worker.js:71-92 | `handleRequest` answers 200 only to the key holder at the root, otherwise 404, a redirect, or `Fault`: the uncaught throw of worker.js:85 when the apex regex fails or the apex does not parse; every redirect target parses, and on a non-empty segment it is a stored target; branch by branch in `ResolveRedirects`, `ListingOnRoot`, `AnonymousRootIgnoresTable` |
| `Protocol.Handle` | worker.js:1-12 | only a POST can add a key, and a target can change only for the key named by a POST's `path` field |
| `Protocol.DispatchByMethod` | worker.js:4-11 | POST goes to create, DELETE to delete, every other method to resolve/list with the table unchanged |
| `Protocol.OnlyAuthorizedWrites` | worker.js:18-62 | a request without the right key, or whose method is neither POST nor DELETE, leaves the table unchanged |
| `Protocol.HandlePreservesWellFormed` | worker.js:28-41 | every request keeps "every stored target is non-empty and parses": create is the only writer and checks both |
| `Protocol.CreateRejectsBadKey` | worker.js:19-21 | a create whose header is missing or differs from the secret answers 403 `Bad key` and stores nothing |
| `Protocol.CreateRejectsMissingField` | worker.js:28-29 | an authorized create with `url` or `path` missing or empty answers 400 `'url' and 'path' must be set` and stores nothing |
| `Protocol.CreateRejectsInvalidUrl` | worker.js:32-36 | an authorized create whose `url` does not parse answers 400 `'url' must be a valid http url` and stores nothing |
| `Protocol.CreateStores` | worker.js:40-44 | an accepted create answers 201 with the request URL followed by `path`, maps `path` to `url` whether or not it existed, and changes no other key |
| `Protocol.CreateIdempotent` | worker.js:40-44 | repeating a create gives the same answer and the same table as doing it once |
| `Protocol.DeleteRejectsBadKey` | worker.js:52-54 | a delete without the right key answers 403 `Sorry, bad key.` and removes nothing |
| `Protocol.DeleteRejectsEmptyPath` | worker.js:56-58 | an authorized delete with an empty first segment answers 404 `Please supply a valid path` and removes nothing |
| `Protocol.DeleteRejectsUnknownPath` | worker.js:59 | an authorized delete whose first segment the table does not hold answers 404 `Path '<segment>' not found` and removes nothing |
| `Protocol.DeleteRemoves` | worker.js:60-61 | an accepted delete answers 200 and removes exactly that key, every other key keeping its target |
| `Protocol.DeleteTwice` | worker.js:59-61 | after a delete that answered 200, the same delete answers 404 `Path '<path>' not found` |
| `Protocol.ResolveRedirects` | worker.js:88-91 | on a well-formed table, a non-empty first segment redirects to its stored target when present and answers 404 `url not found` otherwise |
| `Protocol.CreateThenResolve` | worker.js:88-89 | after an accepted create of `path`, resolving `/path` redirects to the created target |
| `Protocol.DeleteThenResolve` | worker.js:88-91 | after an accepted delete of a segment, resolving that segment answers 404 |
| `Protocol.AnonymousRootIgnoresTable` | worker.js:74-85 | an unauthorized root visit answers the same whatever the table holds: a redirect to the apex when it exists and parses, a fault otherwise |
| `Protocol.ListingOnRoot` | worker.js:77-82 | the key holder's root visit answers 200 with the listing of the store's keys in list order |
| `Protocol.ListingBodyAppend` | worker.js:81 | each step of the listing loop appends the key and a newline |
| `Protocol.ListingIsJoin` | worker.js:80-81 | the listing is the keys joined by newlines, with a final newline |
| `Protocol.ListingLines` | worker.js:79-82 | when no key holds a newline, reading the listing back line by line gives the keys in list order |
| `Kv.Without` | worker.js:60 | removing a key from the listing order keeps exactly the other keys, and keeps them distinct |
| `Kv.Namespace.Get` | worker.js:59 | `get` returns the stored value exactly when the key is present |
| `Kv.Namespace.Put` | worker.js:41 | `put` overwrites or adds the key, keeps the listing a duplicate-free enumeration of the keys, and lists a new key last |
| `Kv.Namespace.Delete` | worker.js:60 | `delete` removes the key from the table and the listing and keeps both consistent |
| `Kv.Namespace.List` | worker.js:79 | `list` enumerates every key exactly once |
| `Handlers.Worker.Fetch` | worker.js:1-12 | the listener's answer and the table it leaves are those of `Handle`, and the table invariant is kept |
| `Handlers.Worker.HandlePost` | worker.js:18-45 | the handler's answer and the table it leaves are those of `Create`, and the table invariant is kept |
| `Handlers.Worker.HandleDelete` | worker.js:51-62 | the handler's answer and the table it leaves are those of `Delete`, and the table invariant is kept |
| `Handlers.Worker.HandleRequest` | worker.js:71-92 | the handler only reads the namespace, and its answer, including the listing built key by key, is that of `Resolve` |

## Left out

- The Workers runtime plumbing (`addEventListener`, `event.respondWith`,
  `Response` objects, status text and headers): a response is a plain datatype.
- async/await and `request.formData()`: the two form fields arrive parsed, as
  optional strings; a body that is not a form (on which `formData()` rejects)
  is not modelled, nor a field sent as a file.
- The WHATWG URL parser: whether a string parses is the parameter `urlParses`;
  how it normalizes (the `href` of a `new URL`, the `Location` written by
  `Response.redirect`) is not modelled, so a redirect carries the string it
  was given.
- The non-`TypeError` rethrow at worker.js:37: the URL constructor only throws
  `TypeError`, so that branch is not modelled.
- The general JavaScript regex engine: line 74 is modelled for http and https
  URLs only (the runtime hands over no others), and `.` in the regex is taken
  to match every character, since a serialized URL holds no line terminator.
- KV semantics beyond a single table: eventual consistency, the real
  lexicographic order of `list()` (as a stand-in, `Namespace.Put` lists a new
  key last; no worker contract depends on the order), pagination of `list()`, and
  concurrent requests, including another writer between the `get` and the
  `delete` of worker.js:59-60.
- Failures of the store calls themselves (they would escape as exceptions).
- Timing-safe comparison of the key: the code compares with `===`.
