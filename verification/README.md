# Backend RPC forwarding layer of the FrankerFaceZ socket server

This project models `socketserver/server/backend.go`: how the edge server
forwards work to its trusted backend. The edge server holds one `backendInfo`.
That object has the backend's URLs, a response cache and a health map of
last-success times. It offers four operations:

- `SendRemoteCommand` and its cached variant, `SendRemoteCommandCached`, POST
  a command to `<base>/cmd/<name>`.
- `SendAggregatedData` POSTs usage statistics to `<base>/stats`.
- `SendNewTopicNotice` and `SendCleanupTopicsNotice` POST pub/sub topic
  notices to `<base>/topics`.

Every call builds a form, has it sealed, POSTs it, classifies the reply into
a result or one of the layer's errors, and may update the cache and the
health map.

The files:

- `text.dfy` (module `Text`): the Go string operations the layer uses. These
  are `strings.IndexRune`, `strings.TrimSpace` with `unicode.IsSpace`, and
  `strings.Join`. `Split` is included only as the inverse that shows Join
  loses nothing.
- `strconv.dfy` (module `StrConv`): `strconv.ParseInt(s, 10, 64)`, the parser
  for the `FFZ-Cache` header, and the `%d` formatting used by the error texts.
- `wire.dfy` (module `Wire`): the form fields, the abstract answers of the
  sealer, the HTTP client and the JSON decoder, the error taxonomy, and the
  texts of the errors.
- `classifier.dfy` (module `Classifier`): how a non-2xx reply is classified.
  The content type is cut at its first `;` and trimmed. It then decides
  between the JSON path and `httpError`.
- `backend.dfy` (module `Backend`): the constants and the cache key. Each
  operation is first a pure step function from the old state (a `Snapshot`
  of the cache and the health map) to its result and the new state. The
  class `BackendInfo` has the two maps as fields, and its methods update
  them in place. Each method's postcondition ties it to its step function.
- `backend_facts.dfy` (module `BackendFacts`): the properties of the step
  functions.

Abstract inputs. Each operation takes the sealer (`Seal`), the HTTP client
(`PostForm` together with reading and closing the body) and the JSON decoder
as function-valued parameters. It also takes the current time `now`. So
"no request is made" is stated as "the result does not depend on the HTTP
client". A reply is a record: status, `Content-Type`, `FFZ-Cache`, the
outcome of reading the body, and the outcome of closing it. Time is
nanoseconds since the Unix epoch, as `time.Time.UnixNano` gives it.

A cache entry keeps its response and the last instant it may be served, or
no instant for an entry that never expires. The expiry comes from the
`FFZ-Cache` hint as the code and go-cache compute it:

- `time.Duration(secs) * time.Second` is an int64 product, so it wraps on
  overflow.
- A zero duration means the cache's 60-second default.
- A negative duration means the entry never expires.
- A positive duration stores the expiration `now.Add(d).UnixNano()`. That is
  an int64, so it wraps once it passes the year 2262. An expiration that is
  not positive counts as none.

So hint 0 lives 60 seconds, and a negative hint lives forever. A positive
hint that carries the expiration past the largest int64 also never expires.
From the year 2026 that is any hint above about 7.4e9 seconds. A hint above
9223372036 seconds wraps the duration itself.

Where the code and its comments differ, the model follows the code:

- The comment on `SendRemoteCommandCached` promises that an expired entry is
  still served while it is refreshed in the background. The code treats an
  expired entry as a miss and makes the call synchronously.
- `ErrBackendNotOK` is documented as "something other than the string ok",
  but only the status code is checked.

Two more facts about the code, which the model keeps:

- A body-read failure in `SendRemoteCommand` is returned as is
  (backend.go:154-157).
- On a 2xx reply, `SendAggregatedData` returns the error of closing the body.
  That error comes after the health update (backend.go:222-226).

## Model

| member | source | states |
|---|---|---|
| `Backend.BackendInfo.constructor` | socketserver/server/backend.go:47-77 | the three endpoint URLs are the base URL followed by `/startup`, `/topics` and `/stats`; the cache starts empty; the health map holds exactly the four fixed buckets, all at the epoch |
| `Backend.CacheKey` | socketserver/server/backend.go:79-81 | getCacheKey: the command, `/`, then the data; what the key determines is stated by `CacheKeyInjective` and `CacheKeyAmbiguous` |
| `Backend.Lookup` | socketserver/server/backend.go:105-106 | go-cache's Get: the stored response while the current instant is not past the entry's expiry, or always for an entry without one |
| `Backend.HintDuration` | socketserver/server/backend.go:189 | `time.Duration(secs) * time.Second` as an int64 product that wraps; its effect is stated by `HintLifetime` |
| `Backend.ExpiryAfter` | socketserver/server/backend.go:190-194 | go-cache's Set: lifetime 0 means the 60-second default of backend.go:55; a positive lifetime stores the int64 `UnixNano` of `now` plus the lifetime, which counts as no expiry when it wraps to a value that is not positive; a negative lifetime never expires |
| `Backend.CommandBucket` | socketserver/server/backend.go:129-130 | `/cmd/<name>`: both the command's health bucket and its path under the base URL |
| `Backend.CommandForm` | socketserver/server/backend.go:132-141 | the command request's fields; stated by `CommandFormFields` |
| `Backend.TopicForm` | socketserver/server/backend.go:257-263 | the topic notice's fields; stated by `TopicNoticeForm` |
| `Backend.MarkCommandSuccess` | socketserver/server/backend.go:197-201 | the health update of a successful command; stated by `CommandSuccessHealth` |
| `Backend.RemoteCommand` | socketserver/server/backend.go:128-204 | SendRemoteCommand branch by branch as a function of the old state: seal, POST, read, 401, non-2xx, cache hint, health update; its properties are the `Command…` lemmas |
| `Backend.RemoteCommandCached` | socketserver/server/backend.go:103-110 | SendRemoteCommandCached: a live entry answers, otherwise RemoteCommand; see `CachedHitShortCircuits` and `CachedMissDelegates` |
| `Backend.AggregatedData` | socketserver/server/backend.go:207-227 | SendAggregatedData as a function of the old state; see `AggregatedDataEffects` |
| `Backend.TopicNotice` | socketserver/server/backend.go:256-289 | sendTopicNotice as a function of the old state; see `TopicNoticeEffects` and `TopicNoticeRejected` |
| `Backend.NewTopicNotice` | socketserver/server/backend.go:244-246 | SendNewTopicNotice: the topic notice with `added` true |
| `Backend.CleanupTopicsNotice` | socketserver/server/backend.go:252-254 | SendCleanupTopicsNotice: the topic notice of `strings.Join(topics, ",")` with `added` false; see `CleanupNoticeListsTopics` |
| `Wire.ErrorText` | socketserver/server/backend.go:96 | the Error() texts of ErrAuthorizationNeeded (line 96), the JSON decode error (177), ErrBackendNotOK (236-238) and httpError (291-293); what they determine is stated by the three `…Text…` lemmas |
| `Text.Join` | socketserver/server/backend.go:253 | strings.Join: the parts with the separator between consecutive ones; `SplitJoin` states that it loses nothing |
| `StrConv.ParseUint64` | socketserver/server/backend.go:185 | the unsigned step of strconv.ParseInt: a range error when the leading run of digits already exceeds 2^64 - 1, otherwise a syntax error for an empty string or a non-digit, otherwise the value; its meaning is stated through `ParseInt64` |
| `StrConv.WrapInt64` | socketserver/server/backend.go:189 | the int64 value congruent to the exact result modulo 2^64, and the result itself when it fits |
| `StrConv.FormatInt` | socketserver/server/backend.go:237 | `%d` of an integer; `ParseFormat` and `FormatIntInjective` state that it can be read back and never repeats |
| `Backend.BackendInfo.SendRemoteCommandCached` | socketserver/server/backend.go:103-110 | the result and the new cache and health map are those of `RemoteCommandCached`, and the four fixed buckets are kept (see the lemmas below) |
| `Backend.BackendInfo.SendRemoteCommand` | socketserver/server/backend.go:128-204 | the in-place updates of the two maps and the early returns give the result and state of `RemoteCommand` |
| `Backend.BackendInfo.SendAggregatedData` | socketserver/server/backend.go:207-227 | follows `AggregatedData` and keeps the fixed buckets |
| `Backend.BackendInfo.SendTopicNotice` | socketserver/server/backend.go:256-289 | follows `TopicNotice` and keeps the fixed buckets |
| `Backend.BackendInfo.SendNewTopicNotice` | socketserver/server/backend.go:244-246 | is the topic notice of the one topic with `added` true |
| `Backend.BackendInfo.SendCleanupTopicsNotice` | socketserver/server/backend.go:252-254 | is the topic notice of the topics joined with `,` with `added` false |
| `BackendFacts.CacheKeyInjective` | socketserver/server/backend.go:79-81 | when neither command contains `/`, equal cache keys mean equal command and equal data; the key has no user in it |
| `BackendFacts.CacheKeyAmbiguous` | socketserver/server/backend.go:79-81 | a command containing `/` can collide: `("a/b","c")` and `("a","b/c")` share a key |
| `BackendFacts.CachedHitShortCircuits` | socketserver/server/backend.go:103-108 | on a live entry the cached string is returned with no error and no state change; the result is the same for any user, sealer, HTTP client and decoder, so none is consulted |
| `BackendFacts.CachedMissDelegates` | socketserver/server/backend.go:105-109 | with no live entry the cached path equals `SendRemoteCommand` |
| `BackendFacts.CachedUntilHintExpires` | socketserver/server/backend.go:184-195 | after a 2xx reply with hint n, the cached path returns that body to any user, with no request, until the expiry go-cache derives from n, or forever when it derives none; past that expiry it makes a new request |
| `BackendFacts.HintLifetime` | socketserver/server/backend.go:189-194 | the entry lives exactly n seconds for 0 < n <= 9223372036 while `now` + n seconds is positive and fits in an int64. It gets the cache's 60-second default for n = 0. It lives forever for a negative n down to -9223372036, and also for a positive n whose expiration passes the largest int64 (`UnixNano` wraps) |
| `BackendFacts.HugeHintNeverExpires` | socketserver/server/backend.go:189 | hint 9223372037 overflows `time.Duration`, wraps negative, and the entry never expires |
| `BackendFacts.CommandFormFields` | socketserver/server/backend.go:132-141 | the command request seals exactly `clientData` = the data, `username` = the Twitch username, and `authenticated` = `1` when the username was validated, `0` otherwise |
| `BackendFacts.CommandTransportOrReadFailure` | socketserver/server/backend.go:148-157 | after a successful seal, a POST failure is returned as the transport error and a body-read failure as the read error, both unchanged and with no state change |
| `BackendFacts.CommandSealFailure` | socketserver/server/backend.go:143-146 | a seal failure is returned as is, changes nothing, and the result does not depend on the HTTP client or the decoder |
| `BackendFacts.CommandFailureKeepsState` | socketserver/server/backend.go:128-195 | every error path of a command leaves the cache and the health map unchanged |
| `BackendFacts.CommandUnauthorized` | socketserver/server/backend.go:161-162 | a readable 401 reply gives exactly `ErrAuthorizationNeeded` and no state change, whatever its body, content type or cache hint |
| `BackendFacts.CommandRejected` | socketserver/server/backend.go:163-182 | any other non-2xx reply gives the classifier's error for its status, content type and body, and no state change |
| `BackendFacts.CommandSucceedsIff` | socketserver/server/backend.go:143-203 | a command succeeds if and only if seal, POST and body read succeed, the status is 2xx and the hint is empty or a 64-bit integer; it then returns the body |
| `BackendFacts.CommandBadCacheHint` | socketserver/server/backend.go:184-188 | a non-integer hint on a 2xx reply fails the whole call with no cache write and no health update |
| `BackendFacts.CommandSuccessHealth` | socketserver/server/backend.go:197-201 | success sets `/cmd/` and `/cmd/<name>` to the same `now`, adds no other bucket, and changes no other bucket |
| `BackendFacts.CommandCacheWrite` | socketserver/server/backend.go:184-195 | the cache changes only on success with a hint; it then gains exactly one entry, the body under `getCacheKey(command, data)`, expiring as go-cache derives it from the hint `n` |
| `Classifier.MediaType` | socketserver/server/backend.go:167-171 | a content type without `;` is compared unchanged; otherwise the result has no `;` and is shorter than the header |
| `Classifier.SelectsJsonIff` | socketserver/server/backend.go:167-173 | the JSON path is taken if and only if the header is exactly `application/json`, or is `application/json` with white space around it followed by `;` and parameters |
| `Classifier.JsonWithParamsSelectsJson` | socketserver/server/backend.go:167-173 | any white-space padding of `application/json` followed by `;` takes the JSON path |
| `Classifier.ClassifyFailure` | socketserver/server/backend.go:173-181 | forwarded JSON if and only if JSON type and the decode succeeds; decode error, carrying the body, if and only if JSON type and the decode fails; `httpError(status)` if and only if not JSON |
| `Classifier.JsonWithCharsetIsForwarded` | socketserver/server/backend.go:167-179 | `application/json; charset=utf-8` is forwarded as the decoded JSON value |
| `Classifier.PlainTextIsHttpError` | socketserver/server/backend.go:181 | `text/plain` gives `httpError(status)` without decoding |
| `Classifier.PaddedWithoutParamsIsNotJson` | socketserver/server/backend.go:167-173 | ` application/json` without a `;` is not trimmed and gives `httpError` |
| `Text.IndexOf` | socketserver/server/backend.go:168 | -1 exactly when the rune is absent; otherwise the index holds the rune and no earlier index does |
| `Text.IndexOfAt` | socketserver/server/backend.go:168 | the first occurrence is unique |
| `Text.TrimLeft` | socketserver/server/backend.go:170 | the result is a suffix of the input, only white space is removed, and it does not start with white space |
| `Text.TrimRight` | socketserver/server/backend.go:170 | the result is a prefix of the input, only white space is removed, and it does not end with white space |
| `Text.TrimSpace` | socketserver/server/backend.go:170 | the result neither starts nor ends with white space |
| `Text.TrimSpacePadded` | socketserver/server/backend.go:170 | trimming any white-space padding of a trimmed word gives the word back |
| `Text.TrimSpaceSplits` | socketserver/server/backend.go:170 | every input is its trimmed form with white space before and after |
| `Text.Split` | socketserver/server/backend.go:253 | reference inverse of the join: at least one part, and no part contains the separator |
| `Text.SplitJoin` | socketserver/server/backend.go:253 | splitting the topics joined with a separator none of them contains gives the topics back |
| `StrConv.ParseInt64` | socketserver/server/backend.go:185 | accepts exactly an optional sign followed by digits whose value fits in 64 signed bits, and returns that value |
| `StrConv.ParseFormat` | socketserver/server/backend.go:185 | parsing the decimal text of any 64-bit value gives the value back |
| `StrConv.FormatIntInjective` | socketserver/server/backend.go:292 | two different numbers never get the same decimal text |
| `StrConv.DigitRun` | socketserver/server/backend.go:185 | the leading digit run is all digits and is followed by a non-digit or the end |
| `StrConv.FormatNat` | socketserver/server/backend.go:292 | the decimal text is non-empty and all digits |
| `Wire.HttpErrorTextCarriesCode` | socketserver/server/backend.go:291-293 | the text of `httpError(code)` is `backend http error: ` followed by a decimal that parses back to the code |
| `Wire.HttpErrorTextInjective` | socketserver/server/backend.go:291-293 | different status codes give different `httpError` texts |
| `Wire.BackendNotOKTextInjective` | socketserver/server/backend.go:236-238 | the text of `ErrBackendNotOK` determines both its code and its response |
| `BackendFacts.AggregatedDataEffects` | socketserver/server/backend.go:207-226 | statistics never touch the cache; the call returns nil if and only if the reply is 2xx and its body closes cleanly, so a seal or transport failure is an error; only a 2xx reply changes the health map, and only `/stats`, to `now`; a non-2xx reply is `httpError(status)` |
| `BackendFacts.AggregatedDataCloseError` | socketserver/server/backend.go:222-226 | on a 2xx reply whose body fails to close, the success is recorded and the close error is returned |
| `BackendFacts.AggregatedDataKeepsCommandBuckets` | socketserver/server/backend.go:224 | no statistics call changes any `/cmd/<name>` bucket |
| `BackendFacts.TopicNoticeForm` | socketserver/server/backend.go:257-263 | the notice seals exactly `channels` = the topic and `added` = `t` or `f` |
| `BackendFacts.CleanupNoticeListsTopics` | socketserver/server/backend.go:252-254 | the cleanup notice sends `f`, and its `channels` field splits back into the topics |
| `BackendFacts.CleanupNoticeIsTopicNotice` | socketserver/server/backend.go:252-254 | the cleanup notice is the topic notice of the comma-joined topics with `added` false |
| `BackendFacts.TopicNoticeRejected` | socketserver/server/backend.go:276-282 | a non-2xx reply is `ErrBackendNotOK` with the status and the body, or the fixed text plus the read error when the body is unreadable; nothing changes |
| `BackendFacts.TopicNoticeEffects` | socketserver/server/backend.go:276-288 | success if and only if the reply is 2xx, which then sets `/topics` to `now`; on failure the health map is unchanged; the cache never changes |
| `BackendFacts.HealthBucketsPersist` | socketserver/server/backend.go:62-68 | no operation removes a health bucket, so the four fixed buckets survive every call: the command, cached command, statistics and topic paths alike |

## Left out

- NaCl sealing (`naclform.ServerInfo.Seal`, `box.Precompute`, the shared key) is an oracle parameter. Nonce freshness and the seal/open round trip are not modelled. The key fields of the configuration are therefore not part of `Config`.
- The HTTP client (`PostForm`, its 60-second timeout) and body reading and closing are the reply record. The deferred `Body.Close()` in the command and topic paths ignores its error, and so does the model.
- `json.Unmarshal` is an oracle parameter. The `Json` value type is never built by the model.
- `Wire.ErrorText` gives no text for `ErrForwardedFromBackend`, because that text is `json.Marshal` of the value. It also gives none for the non-integer cache-duration error, because that text quotes the header with `strconv.Quote`.
- go-cache's janitor is not modelled. Expired entries stay in the map and are never served.
- A single `now` per call stands both for the instant go-cache reads when storing and for the later `time.Now()` of the health update.
- `lastSuccessLock` and concurrent calls: operations are sequential. The `reloadGroup` single-flight group is never used by the code.
- The global `Backend` variable and `GenerateKeys` (key generation and file I/O). `announceStartupURL` is built by the constructor, but no operation in this file uses it.
- Strings are sequences of code points. Go's byte-level UTF-8 handling, including invalid UTF-8 in `TrimSpace`, is not modelled.
