# MatomoTracker, modelled in Dafny

This project models the Node.js client for the Matomo tracking HTTP API. The
client appears twice in the repository: as the TypeScript class of `index.ts`
and as the CommonJS constructor function of `index.js`.

A tracker is built from a site id and the URL of the Matomo endpoint. The
constructor checks both, and it picks the HTTPS or the HTTP agent by the
URL's prefix. `track(options)` normalises one page view into an option
object. It stamps `idsite` and `rec=1` into that object and requests
`trackerUrl + "?" + querystring.stringify(options)`. `trackBulk(events,
callback)` stamps every event the same way. It then posts the JSON body
`{"requests":["?<query>", ...]}`, with the body's byte length as
`Content-Length`. Both response handlers test the status against
`/^(20[04]|30[12478])$/`. A failing status or a transport error is emitted
on the tracker's `error` channel, but only if listeners existed when the
call started. The bulk handler gathers the response chunks and hands their
concatenation to the callback.

Modules, in dependency order:

- `Wrappers`: `Option` and `Result`.
- `JsValues`: the JavaScript values an option or an argument can hold, and
  truthiness.
- `Decimal`: `String(n)` for integers, with its inverse.
- `Utf8`: UTF-8 encoding and a strict decoder. `Buffer.byteLength` is the
  length of the encoding.
- `QueryString`: Node's `querystring.escape` and `querystring.stringify`.
  A reference decoder (`Unescape`, `Parse`) is the partner of the encoder:
  every encoded query decodes back to its fields.
- `Json`: `JSON.stringify` of strings and of `{"requests": [...]}`.
- `Options`: an option object as an insertion-ordered association list.
  `OptionBag` is the caller's object, updated in place. `Put` assigns a
  property, and `Stamp` sets `idsite` and `rec`.
- `Status`: the success pattern, the set it denotes, and the error events
  each handler emits.
- `Config`: the constructor's assertions and the agent choice.
- `Requests`: the request values handed to the transport. It also holds the
  in-place stamping loop of `trackBulk` and the chunk-gathering loop.
- `TrackerTs`: the class of `index.ts`.
- `TrackerJs`: the constructor function of `index.js`, and how it relates
  to `TrackerTs`.

A failed `assert.ok` or `assert.fail` is a `Failure` carrying the
assertion's message as a constructor of `ConfigError` or `TrackError`. The
transport is not called. A request is returned as a value of `Requests.Request`.
Its handlers are methods that take the response status, the response
chunks or the transport error's message as inputs. Each tracker has an
`emitted` log of error events, which stands in for `emit('error', …)`, and
an `errorListeners` count, which stands in for `listeners('error').length`.

The two versions differ in three places, and the model keeps each
difference:

1. `index.ts` checks `url` before stamping, so a failing `track` leaves the
   caller's object alone. `index.js` stamps first, so the object is changed
   even when the call fails. `TrackerJs.TrackVersionsAgree` proves that the
   outcome and the request are the same either way.
2. `index.ts` skips a status of 0 (`res.statusCode && …`). `index.js` tests
   every status. `Status.StatusHandlersAgree` states the difference.
3. In `index.ts`, `siteId` is `readonly` and the constructor only admits a
   truthy one. So the `siteId` assertion of `trackBulk` (index.ts:107) cannot
   fail for callers that respect TypeScript's `readonly`, and
   `TrackerTs.MatomoTracker.TrackBulk` asserts that it holds. The modifier is
   erased at run time, so a JavaScript caller could still clear the field;
   that path is not modelled.
   In `index.js`, `siteId` is an ordinary property that callers reassign (the
   test suite sets it to `null`), so the check is live there.

## Model

| member | source | states |
|---|---|---|
| `Config.Validate` | index.ts:36-40 | Construction succeeds exactly when the site id is a non-zero number or a non-empty string, the tracker URL is a non-empty string, and either `noURLValidation` is truthy or the URL ends in `matomo.php` or `piwik.php`. On success the URL is passed on unchanged. The first failing assertion decides the error. |
| `Config.UsesHttps` | index.ts:46 | The HTTPS agent is chosen exactly when the tracker URL is `"https"` followed by anything. |
| `Config.StartsWithIff` | index.js:40 | The prefix test used for the agent holds exactly when the string is the prefix followed by some rest. |
| `Config.EndsWithIff` | index.js:33 | The suffix test of the URL check holds exactly when the string is something followed by the suffix. |
| `Config.RejectedSiteIdExamples` | test/index.test.js:18-36 | Missing, `null`, object and boolean site ids are rejected with the site-id error. A valid id without a tracker URL is rejected with the tracker-URL error. |
| `Config.TrackerUrlExamples` | test/index.test.js:31-32 | Numeric and string site ids are accepted with `http://example.com/matomo.php`, and the URL is stored as given. |
| `Config.OtherScriptExamples` | test/index.test.js:38-44 | `…/index.php` is rejected as an invalid tracker URL unless `noURLValidation` is `true`. |
| `Config.AgentExamples` | test/index.test.js:108-127 | `https://example.com/matomo.php` selects HTTPS and `http://example.com/matomo.php` does not. |
| `Decimal.NatToString` | index.ts:76 | The decimal text of a number is a non-empty string of digits. It has one digit exactly for n < 10 and starts with `0` only for 0. |
| `Decimal.NatToStringRoundTrip` | index.ts:76 | Reading the decimal text back yields the number. |
| `Decimal.IntToString` | index.ts:76 | `String(n)` is never empty. It is the digits of n, preceded by `-` when n is negative, and the digits read back as the absolute value. The first digit is `0` only for 0, so there are no leading zeros. |
| `Utf8.EncodeChar` | index.ts:128 | A character takes one to four bytes, and exactly one when it is ASCII, in which case that byte is its code. |
| `Utf8.AsciiByteLength` | index.ts:128 | The byte length of an ASCII string is its length in characters. |
| `Utf8.DecodeFirstOfEncodeChar` | index.ts:155 | The decoder reads back the first encoded character and its width, whatever follows it. |
| `Utf8.DecodeEncode` | index.ts:155 | Decoding the UTF-8 encoding of a string gives the string back. |
| `QueryString.PercentEncodeChars` | index.ts:76 | Percent-encoding a byte sequence yields `%XX` triples: every position divisible by 3 holds `%`, and every other position an upper-case hex digit. |
| `QueryString.EscapeChars` | index.ts:76 | Every character of an escaped string is unreserved or `%`. |
| `QueryString.EscapePercentTriples` | index.ts:76 | Every `%` in an escaped string is followed by two upper-case hex digits, so it opens a `%XX` escape. |
| `QueryString.EscapeAppend` | index.ts:76 | Escaping distributes over concatenation. |
| `QueryString.EscapeUnreserved` | index.ts:76 | A string of unreserved characters escapes to itself. |
| `QueryString.EscapeColonSlash` | test/index.test.js:81 | `:` escapes to `%3A` and `/` escapes to `%2F`. |
| `QueryString.EscapeTestPage` | test/index.test.js:81 | `http://mywebsite.com/` escapes to `http%3A%2F%2Fmywebsite.com%2F`. |
| `QueryString.UnescapePercentEncode` | index.ts:76 | The decoder maps the percent-encoding of any bytes back to those bytes, whatever follows. |
| `QueryString.UnescapeBytesOfEscape` | index.ts:76 | Unescaping an escaped string yields the UTF-8 bytes of the original. |
| `QueryString.EscapeRoundTrip` | index.ts:76 | Unescaping an escaped string yields the original string. |
| `QueryString.FieldChars` | index.ts:76 | A `key=value` field holds only query characters and never `&`. |
| `QueryString.StringifyChars` | index.ts:76 | A stringified query holds only ASCII query characters. |
| `QueryString.SplitAtSeparator` | index.ts:76 | Splitting `a + sep + b`, where `a` has no separator, yields `a` and then the split of `b`. |
| `QueryString.SplitStringify` | index.ts:76 | Splitting a stringified query at `&` yields exactly one field per entry, in order. |
| `QueryString.ParseOneField` | index.ts:76 | Each field parses back to its key and the text of its value. |
| `QueryString.Rendered` | index.ts:76 | The decoded query has one pair per entry, in order: the key and the value's `stringifyPrimitive` text. That is a string as it is, an integer in decimal, `true` or `false`, and the empty string for anything else. |
| `QueryString.StringifyRoundTrip` | index.ts:76 | Every query `qs.stringify` produces parses back to the object's entries, in order. |
| `Json.QuoteChar` | index.ts:110-116 | A plain character is quoted as itself, and an ASCII character quotes to ASCII text. |
| `Json.QuotePlain` | index.ts:110-116 | A string of plain characters is quoted by adding the two quote marks alone. |
| `Json.QuoteRequests` | index.ts:110-116 | The key `requests` is written as `"requests"`. |
| `Json.ObjectAscii` | index.ts:110-116 | The JSON object of ASCII strings is ASCII text. |
| `Options.Keys` | index.ts:73-74 | The keys of an object, in insertion order. |
| `Options.PutKeys` | index.ts:73-74 | Assigning a property keeps the key order, and appends the key when it is new. |
| `Options.PutGet` | index.ts:73-74 | After an assignment the property reads back the value, and every other property is unchanged. |
| `Options.PutUnique` | index.ts:73-74 | Assigning a property keeps keys unique. |
| `Options.PutAbsent` | index.ts:73-74 | Assigning a new key appends the entry. |
| `Options.PutPresent` | index.ts:73-74 | Assigning a property the value it already has changes nothing. |
| `Options.StampFacts` | index.ts:73-74 | After stamping, `idsite` reads the site id and `rec` reads 1. Every other property is unchanged, the old keys keep their order at the front, and unique keys stay unique. |
| `Options.StampAppends` | test/index.test.js:81 | Stamping an object without `idsite` or `rec` appends them, in that order. |
| `Options.StampIdempotent` | index.ts:112-113 | Stamping twice is the same as stamping once. |
| `Options.GetIsEntry` | index.ts:69 | A property that reads a value is one of the object's entries. |
| `Options.UniqueGet` | index.ts:73-74 | In an object with unique keys, every entry is what its key reads. |
| `Options.OptionBag.constructor` | index.ts:61-65 | An option object is built with unique keys, as every JavaScript object has. |
| `Options.OptionBag.Set` | index.js:65-66 | Assigning a property of the caller's object replaces the entry with that key in place, or appends one, and keeps the keys unique. |
| `Status.SuccessIffListed` | index.ts:87 | A status passes the success pattern of the response handlers exactly when it is one of 200, 204, 301, 302, 304, 307 and 308. |
| `Status.ThreeDigits` | index.ts:87 | A three-digit status is written as its hundreds, tens and units digits. |
| `Status.StatusErrorsTs` | index.ts:87-91 | A response emits one error carrying its status exactly when the status is non-zero, outside the success set, and listeners existed at the start of the call. Otherwise it emits nothing. |
| `Status.StatusErrorsJs` | index.js:74-78 | A response emits one error carrying its status exactly when the status is outside the success set and listeners existed at the start of the call. Otherwise it emits nothing. |
| `Status.TransportErrors` | index.ts:94-96 | A transport error emits one error carrying its message exactly when listeners existed at the start of the call. |
| `Status.StatusHandlersAgree` | index.js:74 | The two handlers agree on every non-zero status. Only `index.js` reports a status of 0. |
| `Status.NotFoundIsReported` | test/index.test.js:94-102 | A 404 is reported to a listener, a 200 is not, and nothing is reported without listeners. |
| `Requests.RequestUrlCarries` | index.ts:76 | A tracking URL is the tracker URL and `?`, followed by a query that parses back to the object's entries. |
| `Requests.StampKeepsUrl` | index.js:64-68 | Stamping does not change whether the object has a truthy `url`. |
| `Requests.RenderedGet` | index.ts:76 | Every property that reads a value appears, with the text of that value, in the decoded query. |
| `Requests.StampedQueryCarries` | index.ts:73-76 | The stamped query decodes to `idsite` with the site id, `rec=1`, and every other property of the caller's object. |
| `Requests.StampedOnlySiteAndRec` | index.ts:73-76 | For an object with unique keys, the stamped query holds no `idsite` but the site id and no `rec` but 1: whatever the caller had set is overwritten. |
| `Requests.EntriesOf` | index.ts:111 | The events' option objects, read in order. |
| `Requests.StampAllAt` | index.ts:112-113 | Element i of the stamped events is event i stamped. |
| `Requests.FragmentsAt` | index.ts:111-115 | Element i of `requests` is `?` followed by the query of event i, stamped. |
| `Requests.FragmentCarries` | index.ts:114 | Each fragment starts with `?`, and the rest decodes to the stamped event's entries. |
| `Requests.BulkPostLength` | index.ts:128 | The `Content-Length` of the bulk request equals the body's length in characters, because the body is ASCII. |
| `Requests.FragmentIsPlain` | index.ts:110-116 | A fragment is ASCII and holds no character JSON would escape. |
| `Requests.BulkBodyIsPlain` | index.ts:110-128 | Every fragment is quoted as-is, and the body's byte length equals its length in characters. |
| `Requests.SingleEventBody` | index.ts:110-116 | One event gives the body `{"requests":["?<query>"]}`. |
| `Requests.StampAndSerialize` | index.ts:111-115 | Every event is stamped in place, aliased events included, and the fragments are those of the stamped events, in order. |
| `Requests.StampOne` | index.js:97-99 | One event is stamped in place, and its fragment is that of its new entries. |
| `Requests.ConcatAppend` | index.ts:155 | Concatenating chunk lists distributes over appending them. |
| `Requests.CollectBody` | index.ts:148-155 | Gathering the chunks one by one yields their concatenation in arrival order. |
| `TrackerTs.TrackTs` | index.ts:61-76 | `track` fails with the URL error exactly when there is no option object or it lacks a truthy `url`. Otherwise it builds a GET request on the tracker's agent, carrying the listener snapshot. |
| `TrackerTs.TrackTsRequest` | index.ts:73-76 | The URL of a successful `track` is the tracker URL and `?`. The query after that decodes to the stamped entries: the site id, `rec=1`, and every other property of the caller. For options with unique keys, those are the only `idsite` and `rec` in the query. |
| `TrackerTs.StringIsUrlObject` | index.ts:61-65 | A URL string is tracked exactly as `{url: s}` is, and it succeeds exactly when the string is not empty. |
| `TrackerTs.StringifyThree` | index.ts:76 | A three-entry query is its three fields joined by `&`. |
| `TrackerTs.TestSuiteQuery` | test/index.test.js:78-82 | The query of the test page view is `url=http%3A%2F%2Fmywebsite.com%2F&idsite=1&rec=1`. |
| `TrackerTs.TestSuiteRequest` | test/index.test.js:78-88 | Tracking `http://mywebsite.com/` with site id 1 requests the tracker URL followed by `?url=http%3A%2F%2Fmywebsite.com%2F&idsite=1&rec=1`. |
| `TrackerTs.MatomoTracker.constructor` | index.ts:42-46 | A tracker stores the site id and tracker URL, and fixes the agent by the URL's prefix. |
| `TrackerTs.MatomoTracker.Create` | index.ts:31-47 | A tracker is built exactly when the assertions pass, with the failing assertion's error otherwise. The new tracker holds the site id and URL as given, no listeners and an empty error log. |
| `TrackerTs.MatomoTracker.AddErrorListener` | index.ts:26 | Registering an `error` listener adds one listener and emits nothing. |
| `TrackerTs.MatomoTracker.Track` | index.ts:58-99 | The result is that of `TrackTs` for the argument's options and the listener snapshot. The caller's object is stamped when the call succeeds and left unchanged when it fails. |
| `TrackerTs.MatomoTracker.TrackBulk` | index.ts:103-130 | Missing or empty events fail with the events error and change nothing. Otherwise every event is stamped in place, and the POST on the tracker's agent carries the fragments of the stamped events in order, with `Content-Length` equal to the body's length. |
| `TrackerTs.MatomoTracker.OnTrackResponse` | index.ts:85-92 | The response handler of `track` appends exactly the status error `StatusErrorsTs` prescribes. |
| `TrackerTs.MatomoTracker.OnRequestError` | index.ts:94-96 | A transport error appends exactly the events `TransportErrors` prescribes. |
| `TrackerTs.MatomoTracker.OnBulkResponse` | index.ts:141-157 | The bulk handler appends the status error, and passes the concatenated chunks to the callback exactly when the request has one. |
| `TrackerJs.TrackJs` | index.js:57-70 | `track` fails with the URL error exactly when the options, before stamping, lack a truthy `url`. Otherwise it builds a GET request on the tracker's agent, carrying the listener snapshot. |
| `TrackerJs.TrackVersionsAgree` | index.js:64-68 | For the same option object, stamping before the `url` check, as `index.js` does, gives the same outcome and request as checking first, as `index.ts` does. |
| `TrackerJs.ArgumentsAgree` | index.js:57-64 | Both versions agree on every argument, including a missing one, which `index.js` turns into `{}`. |
| `TrackerJs.TestSuiteTrack` | test/index.test.js:78-127 | The test page view requests `…?url=http%3A%2F%2Fmywebsite.com%2F&idsite=1&rec=1` on the HTTP agent for the `http` tracker URL and on the HTTPS agent for the `https` one. |
| `TrackerJs.MatomoTracker.constructor` | index.js:36-40 | A tracker stores the site id and tracker URL, and chooses the agent by the URL's prefix. |
| `TrackerJs.MatomoTracker.Create` | index.js:24-41 | With or without `new`, a tracker is built exactly when the assertions pass, with the failing assertion's error otherwise. It holds the site id and URL as given. |
| `TrackerJs.MatomoTracker.AddErrorListener` | index.js:43 | Registering an `error` listener adds one listener and emits nothing. |
| `TrackerJs.MatomoTracker.Track` | index.js:54-86 | The result is that of `TrackJs` for the argument's options, as they were before the call. The caller's object is stamped whether the call succeeds or fails. |
| `TrackerJs.MatomoTracker.TrackBulk` | index.js:89-115 | The call succeeds exactly when there is at least one event and the current site id is neither undefined nor null. Missing or empty events fail with the events error. An undefined or null current site id fails with the site-id error. A failure changes nothing. Otherwise every event is stamped in place, and the POST carries the fragments in order, with `Content-Length` equal to the body's length. |
| `TrackerJs.MatomoTracker.OnTrackResponse` | index.js:72-79 | The response handler appends exactly the status error `StatusErrorsJs` prescribes. |
| `TrackerJs.MatomoTracker.OnRequestError` | index.js:81-83 | A transport error appends exactly the events `TransportErrors` prescribes. |
| `TrackerJs.MatomoTracker.OnBulkResponse` | index.js:117-134 | The bulk handler appends the status error, and passes the concatenated chunks to the callback exactly when the request has one. |

## Left out

- The HTTP and HTTPS transport itself is not modelled. That covers
  `http.get`, `https.request`, `req.write` and `req.end`, and the
  `url.parse` of the tracker URL into protocol, host, port and path. A
  request is a value naming the agent, the URL, the headers the client sets
  and the body.
- EventEmitter internals and asynchrony are not modelled. Listeners are a
  count, snapshotted when a call starts. An emitted error is appended to a
  log. The order in which responses and errors arrive is whatever order the
  handler methods are called in.
- Removing listeners (`off`, `removeListener`, or a `once` listener that
  has already fired) is not modelled, and the count only grows. The
  handlers test the snapshot taken when the call started, not the listeners
  present when the response arrives. If every listener is gone by then,
  Node's `emit('error', …)` throws, and that throw is not modelled either.
- Numbers are integers. Fractional option values and the exponent form of
  `String(number)` are not modelled. Nor are array-valued options, which
  `querystring.stringify` repeats per element. Nor are nested objects or
  functions as values, which it writes as empty.
- Property order follows insertion order. JavaScript lists integer-like keys
  first, in numeric order, and that is not modelled.
- A truthy argument of `track` that is neither a string nor an object is not
  modelled: for example a number, whose properties cannot be set in strict
  mode.
- `Buffer#toString` replaces malformed UTF-8 with U+FFFD. The callback's
  argument is modelled as the concatenated bytes. `Utf8.DecodeEncode`
  covers decoding of well-formed input only.
- The response status is a natural number. The `undefined` status of
  `index.js`, which also fails the pattern there, is not modelled.
- The `MatomoTrackOptions` type list (index.ts:172-282) is a type annotation
  only. Options are an open map from keys to values.
- `dist/piwik-tracker.umd.js` and `rollup.config.js` are build output and
  build tooling. They are not part of this model.
- `TrackerTs.MatomoTracker.TrackBulk`: the assertion that `siteId` is neither
  `undefined` nor `null` (index.ts:107) is shown to hold rather than modelled
  as an error path. The constructor only admits a truthy site id, so the
  check cannot fail for callers that respect TypeScript's `readonly`. A
  JavaScript caller that clears `siteId` is not modelled.
- A `null` or non-object element of `events` makes `trackBulk` throw a
  `TypeError` while stamping it (index.ts:112, index.js:97), after the
  earlier events have already been stamped. Events are modelled as option
  objects, so this partial failure is not modelled.
- A lone UTF-16 surrogate in a key or value makes `querystring.escape`
  throw a `URIError`. Dafny's `char` is a Unicode scalar value and cannot
  hold one, so that error is not modelled.
- Option objects hold each key once (`Options.OptionBag.Valid`), and
  `track` and `trackBulk` require this of the objects they receive. An
  association list with a repeated key is not a JavaScript object.
- `QueryString.Escape` and `QueryString.Stringify`: the character-level
  facts about their output are stated in the lemmas `EscapeChars`,
  `EscapePercentTriples`, `FieldChars` and `StringifyChars`, not in the
  functions' own contracts.
