# collector-json request handling, modelled in Dafny

The collector is a single HTTP endpoint that accepts small JSON event
payloads. Each call tags the event with an anonymous client id (the `acid`
cookie), the client address and a timestamp, and writes the resulting record
to an object stream. This project models one call of `Collector.prototype.call`
as a pure function. It takes an abstract request and returns the response
status, the response headers, the identity cookie and the records written to
the stream. The call is built from its helpers `getACID` (identity) and
`parseJSON` (shape check and parse).

Files and modules:

- `optional.dfy` (`Optional`): `Option` and a map lookup.
- `js_text.dfy` (`JsText`): the ECMAScript pieces the code relies on.
  - the `\s` class (WhiteSpace and LineTerminator)
  - `String.prototype.trim` and its characterisation
  - the truthiness of optional strings and numbers behind the `||` defaults
- `json_shape.dfy` (`JsonShape`): the shape and parse check of the body.
  - the language of the pre-filter `/^\s*\{.*\}\s*$/`
  - `ShapeOk`, the same test stated on the trimmed text, and the lemma that
    the two agree
  - `ParseJson`, with `JSON.parse` as a partial-function parameter
- `collector.dfy` (`Collector`): the call itself.
  - the configuration defaults and the request, record and response datatypes
  - `GetAcid`, the identity choice
  - the stages of `call`: CORS header, OPTIONS preflight, and the POST
    ingestion (content-type gate, body-read result, shape/parse)
- `http_surface.dfy` (`HttpSurface`): the endpoint's behaviour as a decision
  table, one row per kind of request, independent of the order in which
  `call` tests things. Lemmas show that exactly one row covers each request
  and that `Call` answers as that row says.
- `collector_properties.dfy` (`CollectorProperties`): properties that relate
  several calls, plus the scenarios of the repository's test suite.

Inputs that the real code takes from libraries or the environment:

- the `type-is` verdict is the boolean `Request.typeIsJsonOrText`
- the `raw-body` outcome is `Request.body`: a failure with an optional status,
  or the decoded text
- the cookie jar's view of the request is the map `Request.cookies`
- `proxy-addr`'s answer, the clock and the `uid-safe` id are the fields of
  `Host`
- `JSON.parse` is the parameter `parse: string -> Option<Json>`

Three behaviours of the code worth stating plainly:

- A body that fails the shape check (422) or the parse (400) still has its
  record written to the stream, without `data` (index.js:112-117).
- The identity cookie is not signed: `Cookies(req, res)` is built without
  keys (index.js:134), so `get` and `set` are unsigned.
- A refused preflight (OPTIONS with an `Origin` that does not ask for POST)
  gets no `Allow` header (index.js:69-75); that path returns before line 79.

## Model

| member | source | states |
|---|---|---|
| JsText.TrimStartSpec | index.js:71 | The start of `trim` removes exactly a leading run of whitespace or line terminators. What remains is a suffix of the input that is empty or starts with a non-space character. |
| JsText.TrimEndSpec | index.js:71 | The end of `trim` removes exactly a trailing run of space characters. What remains is a prefix that is empty or ends with a non-space character. |
| JsText.TrimIsPadded | index.js:71 | The result of `trim` occurs inside the input with only space characters before and after it. |
| JsText.TrimIsUnpadded | index.js:71 | The result of `trim` neither starts nor ends with a space character. |
| JsText.TrimUnique | index.js:71 | Any unpadded string that sits between two runs of space characters in the input is the result of `trim`, so trimming strips the maximal runs. |
| JsText.TrimStartStopsAt | index.js:71 | Trimming the start stops exactly at the first non-space character. |
| JsText.TrimEndStopsAt | index.js:71 | Trimming the end stops exactly after the last non-space character. |
| JsonShape.ShapeOkMatches | index.js:148 | If the trimmed text has length at least 2, starts with `{`, ends with `}` and has no line terminator, then the regular expression matches. |
| JsonShape.MatchIsShapeOk | index.js:148 | Every match of the regular expression (`.` refuses LF, CR, U+2028 and U+2029) trims to such a text. |
| JsonShape.ShapeOkIffPattern | index.js:148 | The regular expression matches exactly when the trimmed text has length at least 2, starts with `{`, ends with `}` and has no line terminator. |
| JsonShape.BracedLineMatches | index.js:148 | Text that starts with `{`, ends with `}` and has no line terminator matches the regular expression. |
| JsonShape.InnerLineBreakFails | index.js:148 | Text from `{` to `}` with a line terminator between the braces never matches, whatever else it holds. |
| JsonShape.ParseJson | index.js:147-154 | The result is 422 exactly when the regular expression does not match. It is 400 exactly when the text matches but `JSON.parse` throws. Otherwise it is the parsed value. |
| JsonShape.AcceptedIsObject | index.js:112-114 | If `JSON.parse` only turns `{`-led text into objects, an accepted body is a JSON object. So the `typeof json === 'number'` test only ever sees the two status codes. |
| Collector.NewCollector | index.js:13-27 | Every setting ends up truthy. Each option is handled on its own: a truthy option is kept, and a falsy or absent one gets its default (key `acid`, 16 bytes, one year in milliseconds, `10kb`). |
| Collector.ReadErrorStatus | index.js:107 | A truthy (present, non-zero) reader status is returned as is, and otherwise the status is 415. The result is never 0. |
| Collector.GetAcid | index.js:133-141 | The cookie is written under the configured key, HTTP-only, expiring `maxAge` after now. A non-empty existing cookie value is kept, otherwise the fresh id is used. A non-empty fresh id gives a non-empty identity. |
| Collector.CorsHeaders | index.js:64 | `Access-Control-Allow-Origin: *` is written exactly when the request has a non-empty `Origin`, and nothing else is written. |
| Collector.Preflight | index.js:68-82 | OPTIONS gives 405 exactly when there is an origin and `Access-Control-Request-Method` is absent or does not trim to `POST`. A 405 adds no header. Otherwise the answer is 204 with `Allow: POST, OPTIONS`. The preflight headers (`POST`, max age `1728000`) are added exactly when there is an origin. Earlier headers are kept. |
| Collector.Ingest | index.js:90-118 | Exactly one record is written, identical to the pre-assembled one apart from `data`. The status is 415 for a rejected content type, and `err.status` or 415 for a read failure. For a read body it is 422 if the regular expression fails, 400 if the parse fails, and 200 with `data` set to the parsed value otherwise. |
| Collector.Call | index.js:53-88 | Every call writes the identity cookie. A record is written exactly for POST, and then exactly one, carrying the request headers, identity, address and time. `data` is present exactly for an accepted body and equals the parsed value. `Access-Control-Allow-Origin: *` is set exactly when there is an origin, on every path. Methods other than POST and OPTIONS get 405 with `Allow`. OPTIONS follows the preflight rules. POST writes no header besides the origin one, and its status follows the ingestion rules. |
| HttpSurface.RowOf | index.js:66-117 | Every request is covered by some row of the decision table: a POST-accepted/415/read-failure/422/400 row, a plain OPTIONS, granted or refused preflight row, or the other-method row. |
| HttpSurface.RowsAreDisjoint | index.js:66-117 | No request is covered by two rows. |
| HttpSurface.CallFollowsTable | index.js:53-117 | For the row covering a request, `Call` answers with that row's status. It writes a record exactly for the five POST rows, sets `data` only for the accepted row, and sends `Allow` exactly for plain OPTIONS, a granted preflight and other methods. |
| CollectorProperties.NewCollectorKeepsSettings | index.js:19-27 | A collector built from a configuration's own truthy settings has exactly that configuration. |
| CollectorProperties.NewCollectorIdempotent | index.js:19-27 | Building a collector again from the settings of one already built changes nothing. |
| CollectorProperties.IdentityStable | index.js:133-141 | A request that presents the non-empty identity issued by an earlier call gets the same identity, in the cookie and in its record. |
| CollectorProperties.OnlyPostReadsBody | index.js:66-88 | For any method other than POST, the content type, the body-read outcome and the parser do not change the outcome. |
| CollectorProperties.DataIsObject | index.js:112-116 | If the parser turns `{`-led text into objects only, every `data` written is a JSON object. |
| CollectorProperties.StatusIsKnown | index.js:66-117 | The status is one of 200, 204, 400, 405, 415 and 422, or the non-zero status a failed body read reported. |
| CollectorProperties.SuccessIffData | index.js:104-117 | Unless the body reader fails with status 200, the response is 200 exactly when the one record carries `data`. |
| CollectorProperties.ObjectIsPassedOn | test/test.js:13-27 | `{"event":"asdf"}` posted as JSON is answered 200, and its parsed object is the record's `data`. |
| CollectorProperties.ArrayIsRefused | test/test.js:29-34 | `[1,2,3]` is answered 422, whatever the parser does, and its record has no `data`. |
| CollectorProperties.UnparsableIsRefused | test/test.js:36-42 | `{a:1}`, which `JSON.parse` rejects, is answered 400, and its record has no `data`. |
| CollectorProperties.MultiLineIsRefused | index.js:148 | Any body made of a `{`…`}` text with a line terminator between its braces, with any space characters before and after it, is answered 422 whatever the parser does. Its record has no `data`. Pretty-printed JSON is such a body. |
| CollectorProperties.PaddingLineBreaksAreAccepted | index.js:148 | Any body made of a one-line `{`…`}` text with any space characters before and after it, line breaks included, is answered 200 when it parses. Its parsed value is the record's `data`. |
| CollectorProperties.FormIsRefused | test/test.js:61-67 | A form-encoded body is answered 415, and a record without `data` is still written. |
| CollectorProperties.HeadersArePassedOn | test/test.js:88-107 | The user-agent and referrer request headers appear unchanged in the record. |
| CollectorProperties.GetIsRefused | test/test.js:140-144 | GET is answered 405 with `Allow: POST, OPTIONS`, and nothing is written. |
| CollectorProperties.PlainOptionsIsAnswered | test/test.js:146-150 | OPTIONS without an origin is answered 204 without a CORS header, and nothing is written. |
| CollectorProperties.PreflightForPostIsAnswered | test/test.js:152-160 | A preflight from an origin asking for POST is answered 204. Its headers are exactly Allow-Origin `*`, Allow-Methods `POST`, Max-Age `1728000` and `Allow`. |
| CollectorProperties.PreflightForGetIsRefused | test/test.js:162-169 | A preflight from an origin asking for GET is answered 405, and its only header is Allow-Origin `*`. |

## Left out

- The output stream (`PassThrough`), `pipe` and the stream error logger (index.js:30-34, 125-127). These are I/O plumbing. A written record is modelled only as an element of `Outcome.emitted`.
- `callback` (index.js:41-46) only wraps `call`, so it is not modelled separately.
- Body reading with `raw-body`, the `limit`/`10kb` byte cap and the `media-typer` charset extraction (index.js:98-102). These are foreign calls, represented by their result `BodyRead`. `Config.limit` is carried but nothing checks it.
- `type-is` matching (index.js:91). This is a library call, modelled as the boolean `typeIsJsonOrText`.
- Ingest: the `typeof json === 'number'` test (index.js:113) is not modelled. Every parsed value is taken as `data` with status 200. `AcceptedIsObject` shows the test never fires for a parser meeting `ObjectTextParsesToObject`, which `JSON.parse` does, because `{`-led JSON text can only parse to an object.
- `JSON.parse` (index.js:150). It is the parameter `parse`. The one fact relied on about it is stated as the predicate `ObjectTextParsesToObject`.
- `proxy-addr` and the trust predicate (index.js:24, 60). The address is the opaque `Host.ip`, so the `trust` option is not in `Options`.
- Cookie header parsing and `Set-Cookie` serialisation by `cookies`, and the randomness of `uid-safe` (index.js:134-139). The cookie jar is a map, the fresh id is `Host.freshId`, and `byteLength` only feeds the id source.
- Clocks (index.js:61, 137). The code reads the clock twice, once for `received_at` and once for the expiry. The model uses one reading, `Host.now`, for both.
- Console logging (index.js:33, 105). It is I/O.
- Node's rejection of an out-of-range `statusCode` when the response is ended, and a `NaN` `err.status`. Neither is modelled: `ReadErrorStatus` treats only 0 and an absent status as falsy.
- Strings are sequences of Unicode scalar values, while JavaScript strings are UTF-16 code units. For `\s`, `.` and `trim` this makes no difference, since every class involved lies in the Basic Multilingual Plane and `.` accepts each half of a surrogate pair.
