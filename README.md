# urlshort, modelled in Dafny

A model of the decision logic of `urlshort`, a small Go URL shortener, with
proofs of what its handlers, its key generator, its Redis-backed store and its
command-line file selection promise.

The system has two modes. In the static mode, a table of `path -> url` is
built once from decoded YAML or JSON records. `MapHandler` then answers each
GET with a 301 redirect when the request path, stripped of trailing `/` and
space characters, is in the table. Otherwise the request goes to a fallback
handler. In the dynamic mode, `Shortener` accepts a POSTed `url`, makes a random
six-character key, saves the pair through a storage port and shows
`host/short/key`. `RetrieveHandler` trims '/' and ' ' from both ends of a GET
path, takes everything after the first `/` that remains as the key, reads it
back and redirects. The Redis store behind the port writes only
if the key is absent (`SET NX`), with a time to live fixed at construction.
It reports an absent or expired key as `ErrMissingKey`.

Modules, one per component:

- `Wrappers`: `Option` and `Result`.
- `GoStrings`: `strings.TrimRight`, `TrimLeft`, `Trim`, and `SplitN(s, "/", 2)`.
- `FilePath`: `filepath.Ext`.
- `Http`: the request record, the outcome of a handler, and its status code. 301 is section 15.4.2 of RFC 9110; 405 is section 15.5.6.
- `StaticRedirect`: `buildMap`, `YAMLHandler`, `JSONHandler` and `MapHandler` (handler.go).
- `ShortKey`: `generateShortKey` (handler.go).
- `DynamicRedirect`: `Shortener`, `RetrieveHandler` and `ErrMissingKey` (handler.go).
- `RedisStore`: the Redis client, as a class over a keyspace map and a clock (internal/redis/redis.go).
- `FileCmd`: `readFile` and `saver` (cmd/file/main.go).
- `MainCmd`: the copy of `readFile` in main/main.go.

How the model is shaped:

- Each handler is a function from one request to a `Response`. The response holds the `Outcome` and the storage calls made, in order. So "Save is never called" and "Get is called once, with this key" are statements about the result.
- The fallback handler is the outcome `Fallback(request)`, which carries the unchanged request.
- The storage port is a function parameter: `save` gives the error of `Save(key, url)`, and `get` gives the reply of `Get(key)`.
- `url.ParseRequestURI` is a parameter `isRequestURI`. The only facts assumed about it are the four the tests fix (`AgreesWithTests`), and only the test-case lemma uses them.
- The random number generator is the six indices it returns, each below 62.
- `buildMap` and `generateShortKey` loop and mutate, so they are methods with loop invariants. `generateShortKey` fills an array.
- The Redis client and the in-memory `saver` update state, so they are classes.
- The Redis server is a map from key to `(url, expiresAt)` plus a clock in seconds. A backend failure is a `fault` argument.
- In `readFile`, opening and reading the file is a parameter `readAll` from path to bytes or error.

Some properties span components. `ShortenThenRetrieve` shows that a shortened URL redirects until its time to live ends and reaches the fallback after that. `CollisionKeepsFirstWriter` shows the key-collision gap: the generator does not check for collisions and `Save` is set-if-absent. So when a generated key is already live, the second writer is told it succeeded, but the short URL leads to the first writer's URL.

## Model

| member | source | states |
|---|---|---|
| `GoStrings.TrimRight` | handler.go:31 | the result is the prefix of the input that ends outside the cutset, and everything cut off is in the cutset |
| `GoStrings.TrimRightUnique` | handler.go:31 | that prefix is the only one with those two properties |
| `GoStrings.TrimRightIgnoresPadding` | handler.go:31 | appending cutset characters does not change the trimmed form |
| `GoStrings.TrimRightIdempotent` | handler.go:31 | trimming twice gives the same result as trimming once |
| `GoStrings.TrimLeft` | handler.go:219 | the result is the suffix that starts outside the cutset, and everything cut off is in the cutset |
| `GoStrings.TrimLeftUnique` | handler.go:219 | that suffix is the only one with those two properties |
| `GoStrings.Trim` | handler.go:219 | the result is a slice of the input that starts and ends outside the cutset, with only cutset characters on either side of it |
| `GoStrings.TrimDropsLeadingCut` | handler.go:219 | one leading cutset character before text that starts and ends outside the cutset is all that `Trim` removes |
| `GoStrings.IndexOf` | handler.go:219 | gives the first position of the character, or none exactly when it does not occur |
| `GoStrings.SplitN2` | handler.go:219 | gives `[s]` when there is no separator; otherwise the text before the first separator and everything after it, which together rebuild `s` |
| `GoStrings.FirstSplitUnique` | handler.go:219 | the split at the first separator is determined by the string |
| `FilePath.Ext` | cmd/file/main.go:71 | the result is the suffix from the last '.' of the last path element, or "" exactly when that element has no '.' |
| `FilePath.ExtOfSuffix` | cmd/file/main.go:71-77 | a path ending in `.yml`, `.yaml` or `.json` (or any '.' plus text without '.' or '/') has that extension |
| `StaticRedirect.BuildMap` | handler.go:112-122 | fails exactly when two records share a path, with "repeated path" and no table; otherwise the keys are exactly the paths, and each path maps to its record's URL |
| `StaticRedirect.YAMLHandler` | handler.go:60-71 | a decoding error is returned unchanged; a repeated path gives no handler; otherwise the handler serves the table of the records |
| `StaticRedirect.JSONHandler` | handler.go:99-110 | the same as `YAMLHandler`, for JSON |
| `StaticRedirect.MapHandler` | handler.go:25-37 | any method other than GET gives 405 and nothing else; a GET redirects to the table's URL for the path minus its trailing '/' and ' ' characters, and otherwise hands the unchanged request to the fallback |
| `StaticRedirect.NormalizationExists` | handler.go:31 | every request path normalizes to its right-trimmed form |
| `StaticRedirect.TrailingPaddingIgnored` | handler.go:31-33 | adding trailing '/' and ' ' characters to a GET path changes neither whether nor where it redirects |
| `StaticRedirect.StaticResolution` | handler.go:25-37 | for a table built from the records, a GET of a record's path, with any trailing padding, redirects to that record's URL (when the path itself does not end in '/' or ' ') |
| `StaticRedirect.PaddedKeyUnreachable` | handler.go:31 | a table path that ends in '/' or ' ' is never the key of any request |
| `StaticRedirect.MapHandlerTestCases` | handler_test.go:13-88 | on the test table, `/urlshort` and `/urlshort-final/  ` get a 301 to their URLs, `/random-path` reaches the fallback, and a POST gets 405 |
| `StaticRedirect.MapHandlerTestStatuses` | handler_test.go:13-88 | the two mapped test paths are answered with status 301 |
| `ShortKey.CharAt` | handler.go:183 | each position of the alphabet holds an alphanumeric character |
| `ShortKey.IndexOfChar` | handler.go:183 | every alphanumeric character has a position in the alphabet |
| `ShortKey.CharsetAt` | handler.go:183 | the `charset` constant has 62 characters and spells the alphabet in that order |
| `ShortKey.CharsetIsAlphabet` | handler.go:183 | the charset holds exactly the alphanumeric characters, each once |
| `ShortKey.KeyFromDraws` | handler.go:188-192 | a key built from six draws has length 6, and every character is alphanumeric |
| `ShortKey.GenerateShortKey` | handler.go:182-193 | the buffer, filled index by index, is the key the draws determine |
| `ShortKey.EveryShortKeyGenerated` | handler.go:186-192 | every six-character alphanumeric string is produced by some draws |
| `ShortKey.DistinctDrawsDistinctKeys` | handler.go:186-192 | different draws give different keys, so uniform draws give uniform keys |
| `Http.FormValue` | handler.go:143 | the definition of `r.FormValue`: the field's value when the form holds it, and "" otherwise; what it means for the handler is stated by `MissingUrlIsBadRequest` |
| `Http.Status` | handler.go:27-33 | a fallback picks its own status; a rendered page is 200, every redirect is a permanent 301, 405, 400 and 404 are in the 4xx class, and an internal error is in the 5xx class |
| `DynamicRedirect.ErrorText` | handler.go:204-230 | the definition of `err.Error()`: `ErrMissingKey` reads "key not found", and any other error reads as its own text; what the handler shows is stated by `RetrieveErrorShowsBackendText` |
| `DynamicRedirect.Shortener` | handler.go:136-161 | checks run in a fixed order: non-POST gives 405, an empty `url` gives 400 "URL parameter is missing", and an invalid URI goes to the fallback, with no Save in these cases; otherwise Save is called exactly once, with a well-formed key and the URL; its failure gives 500 "error saving short url", and its success shows the URL and `host/short/key` |
| `DynamicRedirect.SaveErrorNotLeaked` | handler.go:156-158 | two failing stores with different error texts give the same response |
| `DynamicRedirect.MissingUrlIsBadRequest` | handler.go:143-147 | a request gets 400 exactly when it is a POST whose `url` field is absent or empty, and then the response is "URL parameter is missing" with no Save |
| `DynamicRedirect.ShortenerTestCases` | handler_test.go:200-274 | for any URI check that agrees with the tested examples: a valid URL is rendered with 200; `google` and `google.com` reach the fallback; an empty URL gets 400 with its message; GET gets 405; a failing store gets 500 with its message |
| `DynamicRedirect.RetrieveHandler` | handler.go:213-235 | non-GET gives 405; a path with no routed key gives 404 without a lookup; otherwise Get is called exactly once, with the routed key; `ErrMissingKey` goes to the fallback, any other error gives 500 with its text, and a success gives a 301 to the stored URL |
| `DynamicRedirect.RetrieveErrorShowsBackendText` | handler.go:225-231 | every 500 from the read path shows exactly the backend's own error text, so a missing key never gives a 500 |
| `DynamicRedirect.RoutedKey` | handler.go:219-224 | there is no key exactly when the trimmed path has no '/'; otherwise the key is the text after the trimmed path's first '/' |
| `DynamicRedirect.RoutedKeyUnique` | handler.go:219 | the text after the first '/' is determined by the trimmed path |
| `DynamicRedirect.RoutedKeyExact` | handler.go:219-224 | a path whose trimmed form is text without '/', then '/', then `key`, has `key` as its routed key |
| `DynamicRedirect.RetrieveLooksUpRoutedKey` | handler.go:219-224 | a GET whose path routes to a key looks up exactly that key |
| `DynamicRedirect.RetrieveShortPath` | handler.go:219-224 | a GET of `/short/` plus any key whose last character is not '/' or ' ' looks up that key, even a key that starts with or contains '/' |
| `DynamicRedirect.KeyMayHoldSlashes` | handler.go:219-224 | `/short/a/b` looks up `a/b` |
| `DynamicRedirect.KeyMayStartWithSlash` | handler.go:219-224 | only the ends of the path are trimmed, so `/short//x` looks up `/x` |
| `DynamicRedirect.RetrieveShortPathOutcome` | handler.go:219-233 | a GET of `/short/key`, for any key whose last character is not '/' or ' ', is decided by the reply to `Get(key)` alone |
| `DynamicRedirect.RetrieveHandlerTestCases` | handler_test.go:294-346 | for a GET of `/short/CSl5Ow`: a found key gets a 301, a missing key reaches the fallback, and a backend error gets 500 with its text |
| `DynamicRedirect.RetrieveHandlerTestStatuses` | handler_test.go:294-346 | for a GET of `/short/CSl5Ow`: a found key gets status 301, and a failing getter gets 500 |
| `DynamicRedirect.SegmentThenKeyRoutes` | handler.go:219-224 | a path made of '/', a segment without '/', '/' and a key trims to the segment, '/' and the key, and routes to the key |
| `DynamicRedirect.ShortPathRoutes` | handler.go:219 | for any key whose last character is not '/' or ' ', the path `/short/key`, trimmed, is `short/` plus the key, and it routes to the key |
| `RedisStore.SetNX` | internal/redis/redis.go:41 | the server's set-if-absent with a time to live: for a positive time to live, afterwards the key is present and live; it holds the new URL and expiry exactly when it was not live before; every other key keeps its entry |
| `RedisStore.Lookup` | internal/redis/redis.go:49-56 | a live key gives its URL with no error; an absent or expired key (`redis.Nil`) gives "" with `ErrMissingKey` |
| `RedisStore.Client.New` | internal/redis/redis.go:27-38 | the client attaches to a server holding whatever keyspace it already holds; the time to live is fixed when the client is made |
| `RedisStore.Client.Save` | internal/redis/redis.go:40-46 | set if absent, with an expiry `expirationMinutes` minutes after now; a live key is left unchanged and success is still reported; only a backend error is returned, unchanged |
| `RedisStore.Client.Get` | internal/redis/redis.go:48-57 | a live key gives its URL; an absent or expired key gives "" with `ErrMissingKey`; any other backend error gives "" with that error |
| `RedisStore.SaveAndGet` | internal/redis/redis_test.go:11-44 | a Save of a fresh key followed by a Get returns the saved URL with no error |
| `RedisStore.SaveWaitGet` | internal/redis/redis.go:40-57 | on one client, a Save of a fresh key, then some seconds of waiting, then a Get: the URL while the time to live lasts, and "" with `ErrMissingKey` once it has run out |
| `RedisStore.SaveKeepsLiveKey` | internal/redis/redis.go:41 | saving under a live key changes nothing |
| `RedisStore.SaveLeavesOtherKeys` | internal/redis/redis.go:41 | a Save is invisible to reads of every other key, at every time |
| `RedisStore.SaveThenGetWithinTtl` | internal/redis/redis.go:40-57 | a freshly saved key reads back as its URL until the time to live has passed, and as `ErrMissingKey` after that |
| `RedisStore.ShortenThenRetrieve` | handler.go:155-161 | a valid POST against a reachable store with a free key renders `host/short/key` and stores the URL; a GET of `/short/key` then redirects to it until the time to live ends, and reaches the fallback after that |
| `RedisStore.CollisionKeepsFirstWriter` | handler.go:155-156 | when the generated key is already live, the shortener still reports success, but the short URL leads to the earlier URL |
| `FileCmd.ReadFile` | cmd/file/main.go:63-97 | both flags set, a wrong extension, and no flag each fail with their fixed message and no data, in that order; on success exactly one of isYAML and isJSON is set, matching the flag, and the data are the chosen file's bytes; a read error is returned unchanged |
| `FileCmd.ReadFileTestCases` | cmd/file/main_test.go:21-24 | the four failing test cases give their expected messages |
| `FileCmd.ReadFileReadsChosenFile` | cmd/file/main_test.go:25-78 | `dir/paths.yml` and `dir/paths.json` are read and tagged with their format |
| `FileCmd.Saver.constructor` | cmd/file/main.go:99-101 | a saver holds the map it is given |
| `FileCmd.Saver.Save` | cmd/file/main.go:103-106 | stores the URL under the key, overwriting any earlier value and leaving other keys alone, and never fails |
| `MainCmd.ReadFile` | main/main.go:60-94 | the same checks, messages and results as `FileCmd.ReadFile` |
| `MainCmd.SameAsFileCmd` | main/main.go:60-94 | the two copies of `readFile` agree on every input |

## Left out

- HTML templating is left out: `template.ParseFiles` and `Execute` in `Shortener`, and `ShortenerHome`, `MissingUrlHandler` and `InvalidUrlHandler`. A successful shorten is the outcome `Rendered(originalUrl, shortUrl)`, and template errors are not modelled.
- YAML and JSON decoding (`yaml.Unmarshal`, `json.Unmarshal`) are foreign libraries. `YAMLHandler` and `JSONHandler` take the decoded records, or the decoder's error.
- The internals of `url.ParseRequestURI` are left out. It is an abstract predicate, and only the four tested inputs are pinned down.
- `DynamicRedirect.RetrieveHandler`: `errors.Is(err, ErrMissingKey)` is modelled as equality with `ErrMissingKey`. An error that wraps `ErrMissingKey` (made with `%w`) also reaches the fallback in Go, but the `Error` datatype cannot express a wrapped error.
- The random source seeded from the clock is left out. The key generator takes the six indices `rng.Intn(62)` returned.
- The Redis network client, connection options and context cancellation are left out. A backend failure is the `fault` argument.
- `RedisStore.Client.Save`: a failing backend is modelled as leaving the keyspace unchanged, although a real failure could come after the write.
- `RedisStore.Client.New`: requires `expirationMinutes > 0`, because Redis gives a zero or negative time to live its own meaning.
- `RedisStore.Client.TtlSeconds`: the time to live is an unbounded number of seconds. Go computes `time.Duration(expirationMinutes) * time.Minute` in 64-bit nanoseconds, which wraps when `expirationMinutes` is above 153,722,867. The model does not capture that wrapped value reaching Redis.
- Redis expiry is modelled at one-second resolution.
- The atomicity of set-if-absent under concurrent requests belongs to the backend and is not modelled.
- The HTTP listener, signal handling and graceful shutdown (internal/server/server.go) are not part of this model.
- Routing with `http.ServeMux`, and the headers `http.Redirect` writes, are left out.
- The POST case of the `RetrieveHandler` tests has no test lemma of its own. The first clause of `RetrieveHandler`'s contract states it for every request.
- cmd/redis/main.go is not part of this model. It calls `Shortener` with one argument, which does not match the three-parameter `Shortener` in handler.go.
- `FileCmd.Saver`: the map is a value field. The Go `saver` holds a reference to its map, so every `Save` is visible to any other holder of that map, and this sharing is not modelled. A zero `saver{}` has a nil map, and `Save` on it panics; the model has no nil map, so "never fails" holds only for a saver made with a map.
- `os.Open` and `io.ReadAll` in `readFile` are the `readAll` parameter.
- Flag parsing and `log.Fatal` in the two `main` functions are left out.
- `filepath.Ext` is modelled with '/' as the only separator, as on Unix.
- Go strings are byte strings, and the model uses `seq<char>`. All the characters the handlers examine are ASCII.
