# HLS stream proxy: a Dafny model

The repository is a Cloudflare Pages function that proxies HTTP Live
Streaming (HLS) playlists and segments. It fetches the URL given in the
`url` query parameter and dresses the request as coming from fancode.com
(`Referer`, `Origin`, `User-Agent`). It then hands the upstream response back
with permissive CORS headers. It comes in two variants:

- `functions/proxy.js`, the strict handler. It mirrors a non-2xx upstream
  status (304 and 600..999 excepted, see below) with a diagnostic that quotes up to 200 characters of the upstream
  body. It refuses a 200 response whose `content-type` names none of the HLS
  media types with 415 (Unsupported Media Type). It relays everything else.
- `proxy.js`, the lax handler. It forwards the caller's `User-Agent` (or a
  fixed Chrome/58 one) and relays every upstream response with a status in
  200..599 unchecked.

Each handler is modelled as a total function of the `url` value
(`Option<string>`), of `fetch` and, for the lax handler, of the caller's
request headers. `fetch` is a parameter from the outbound
request to an abstract outcome. The outcome is either
`TransportFailure(message)` or `Upstream(status, headers, body, readable)`.
The handler's result is an `Exchange`: the response, and the request sent
upstream if one was built.

The relay step changes a `Headers` object in place. It is modelled as a
method that copies the upstream header map into a `Http.Headers` object and
calls `Set` on it. Each handler's `OnRequest` method follows the source's
early returns and is proved equal to the handler's `Handle` function. The
properties are lemmas about `Handle` and `Answer`.

Files:

- `text.dfy` (module `Text`): the JavaScript string operations used. These are
  ASCII lower-casing of header names, `includes`, `substring(0, n)` and
  decimal rendering of numbers, each with a reference definition or an
  inverse.
- `http.dfy` (module `Http`): header maps keyed by lower-cased names (field
  names are case-insensitive, section 5.1 of RFC 9110), the `Headers` class,
  the request, outcome and response records, and the CORS rewrite.
- `strict_proxy.dfy` (module `StrictProxy`): `functions/proxy.js`.
- `lax_proxy.dfy` (module `LaxProxy`): `proxy.js`.
- `variants.dfy` (module `Variants`): how the two handlers relate.

Choices the code makes that a reader might not expect:

- Only a status of exactly 200 gets the content-type check. Any other 2xx
  status is relayed whatever its type.
- The 415 diagnostic names the content type but does not quote the body.
  The body is read only for the log.
- Error responses (400, mirrored status, 415, 500) are fresh plain-text
  responses. They carry no CORS header; only relayed responses get them.
- The strict handler writes `content-type` back only when it is non-empty.
  The value written is the one just read, so the write changes nothing
  (`StrictProxy.Relay`, `Variants.AcceptedAnswersAgree`).
- An upstream 304 is not mirrored. Redirect following leaves it alone, but a
  text response may not carry status 304, so the constructor throws and the
  catch-all answers 500 (`StrictProxy.NotModifiedAnswered500`).
- An upstream status in 600..999, which `fetch` can deliver, is refused by
  every `Response` constructor with a RangeError. Both handlers then answer
  500 from their catch-all (`StrictProxy.OutOfRangeAnswered500`,
  `LaxProxy.OutOfRangeAnswered500`).

## Model

| member | source | states |
|---|---|---|
| `StrictProxy.OnRequest` | functions/proxy.js:5-75 | the early-return handler returns exactly the response and the sent request that `StrictProxy.Handle` specifies, for every `url` value and every `fetch` |
| `StrictProxy.MissingUrlRejected` | functions/proxy.js:9-11 | a missing or empty `url` gives a fresh plain-text 400 with body `Error: No stream URL parameter provided` and no CORS header, and no upstream request is built |
| `StrictProxy.PresentUrlFetched` | functions/proxy.js:13-26 | a non-empty `url` sends exactly one request, the disguised one for that URL, and the answer depends only on what `fetch` returned for it |
| `StrictProxy.StreamRequest` | functions/proxy.js:14-23 | the outbound request has exactly three headers: `Referer: https://www.fancode.com/`, `Origin: https://www.fancode.com` and the Chrome/108 `User-Agent`; redirects are followed; nothing depends on the caller |
| `StrictProxy.ContentTypeOf` | functions/proxy.js:38 | the content type is the upstream header value when present, and the empty string when absent |
| `StrictProxy.IsValidHlsTypeIff` | functions/proxy.js:42-45 | a content type is valid iff one of `application/vnd.apple.mpegurl`, `audio/mpegurl`, `application/x-mpegurl`, `video/mp2t` occurs in it verbatim (case-sensitive, unanchored) |
| `StrictProxy.MissingContentTypeInvalid` | functions/proxy.js:38-45 | a missing `content-type` reads as `''` and is never valid |
| `StrictProxy.Classify` | functions/proxy.js:29-53 | a status outside 200..299 is an upstream error; a content-type mismatch happens iff the status is exactly 200 and the type is invalid; otherwise the response is accepted with its content type |
| `StrictProxy.UpstreamErrorMirrored` | functions/proxy.js:29-35 | a non-2xx status in 300..599 other than 304 is mirrored; the body is the fixed prefix, the status, `. Body: ` and a snippet; a readable body gives a snippet that is its prefix of length min(200, length); an unreadable one gives `Upstream error status N` |
| `StrictProxy.NotModifiedAnswered500` | functions/proxy.js:29-34 | an upstream 304 fails `response.ok`, but the mirrored text response cannot be built with a null-body status, so the caught exception gives 500 with `Error fetching stream via proxy: ` and the constructor's message |
| `StrictProxy.OutOfRangeAnswered500` | functions/proxy.js:29-34 | an upstream status in 600..999 fails `response.ok`, the text response cannot be built with it, and the caught RangeError gives 500 with `Error fetching stream via proxy: ` and the constructor's message |
| `StrictProxy.UpstreamErrorNamesStatus` | functions/proxy.js:34 | the mirrored diagnostic determines the upstream status: reading the digits after the prefix gives back the status |
| `StrictProxy.ForbiddenMirrored` | functions/proxy.js:29-34 | an upstream 403 gives 403 with a diagnostic that contains `403` |
| `StrictProxy.ContentTypeMismatchRejected` | functions/proxy.js:47-53 | a 200 response of an invalid type gives a 415 text response whose body contains the offending content type |
| `StrictProxy.InvalidTypeTextNamesType` | functions/proxy.js:52 | the 415 diagnostic determines the content type it reports, even when that type contains quotes |
| `StrictProxy.LoginPageRejected` | functions/proxy.js:47-52 | a 200 `text/html` page gives 415 with a diagnostic that contains `text/html` |
| `StrictProxy.OtherSuccessNotChecked` | functions/proxy.js:47 | a 2xx status other than 200 is relayed whatever its content type |
| `StrictProxy.Relay` | functions/proxy.js:58-69 | copying the response and setting both CORS headers and the content type yields the upstream headers with only the two CORS headers overwritten; status and body are unchanged |
| `StrictProxy.AcceptedRelayed` | functions/proxy.js:58-69 | an accepted response keeps its status and body; `Access-Control-Allow-Origin` is `*` and `Access-Control-Allow-Methods` is `GET, HEAD, OPTIONS` whatever upstream sent; a non-empty content type is kept; every other header is kept unchanged |
| `StrictProxy.PlaylistRelayed` | functions/proxy.js:42-69 | a 200 playlist of type `application/vnd.apple.mpegurl` is relayed with the same body and the same content type |
| `StrictProxy.RejectionsCarryNoCors` | functions/proxy.js:29-74 | every rejection (mirrored error, 415, 500) is a fresh plain-text response without either CORS header |
| `StrictProxy.TransportFailureReported` | functions/proxy.js:71-74 | a failed fetch with message `m` gives 500 with body `Error fetching stream via proxy: ` followed by `m` |
| `LaxProxy.OnRequest` | proxy.js:7-44 | the early-return handler returns exactly the response and the sent request that `LaxProxy.Handle` specifies |
| `LaxProxy.MissingUrlRejected` | proxy.js:12-14 | a missing or empty `url` gives a fresh plain-text 400 with body `Error: No stream URL parameter provided` and no CORS header, and no upstream request is built |
| `LaxProxy.SelectUserAgent` | proxy.js:24 | the outbound `User-Agent` is the caller's when present and non-empty, and the fixed Chrome/58 string otherwise |
| `LaxProxy.StreamRequest` | proxy.js:20-26 | the outbound request has exactly `Referer`, `Origin` (the fixed fancode.com values) and the selected `User-Agent`, with the default redirect mode, which follows |
| `LaxProxy.IdentityIndependentOfCaller` | proxy.js:20-24 | `Referer` and `Origin` are the same for every caller, and two callers' requests differ iff their selected `User-Agent`s differ |
| `LaxProxy.Relay` | proxy.js:36-39 | setting both CORS headers on the copied response keeps its status and body and gives its headers with both CORS headers overwritten |
| `LaxProxy.EveryStatusRelayed` | proxy.js:29-39 | every upstream status in 200..599, 4xx and 5xx included, is relayed with its body and both CORS headers, and all other headers unchanged |
| `LaxProxy.OutOfRangeAnswered500` | proxy.js:33-43 | an upstream status in 600..999 cannot be copied into a new response, and the caught RangeError gives 500 with `Error fetching stream: ` and the constructor's message |
| `LaxProxy.NoContentTypeCheck` | proxy.js:29-39 | the lax handler never produces a 415 of its own |
| `LaxProxy.TransportFailureReported` | proxy.js:41-43 | a failed fetch with message `m` gives 500 with body `Error fetching stream: ` followed by `m` and no CORS header |
| `Variants.SameGuard` | proxy.js:12-14 | both handlers refuse exactly the same `url` values, with the same response |
| `Variants.RequestsDifferOnlyInUserAgent` | proxy.js:20-26 | the two handlers' outbound requests are equal except for the `User-Agent` value |
| `Variants.AcceptedAnswersAgree` | functions/proxy.js:58-69 | whenever the strict handler accepts a response, both handlers return the identical response |
| `Variants.AnswersDifferOnlyOnRejection` | functions/proxy.js:29-53 | where the handlers' answers differ, the strict one refused the response (a non-2xx status, or a 200 of an invalid type), and its answer carries neither CORS header |
| `Http.Headers.Set` | functions/proxy.js:61-66 | `set` stores the value under the lower-cased name and leaves every other entry as it was |
| `Http.Headers.constructor` | functions/proxy.js:58 | the copy made for the new response starts with exactly the upstream headers |
| `Http.GetHeader` | functions/proxy.js:38 | `get` answers the value stored under the lower-cased name, and nothing when that key is absent |
| `Http.GetHeaderIgnoresCase` | functions/proxy.js:38 | two spellings of a name that differ only in letter case find the same header |
| `Http.NewTextResponse` | functions/proxy.js:34 | `new Response(text, { status })` succeeds exactly for statuses in 200..599 that may carry a body, giving the plain-text response; otherwise it throws |
| `Http.CopyResponse` | proxy.js:33 | `new Response(response.body, response)` succeeds exactly for statuses in 200..599, giving a response with the same status, headers and body; otherwise it throws |
| `Http.TextResponse` | functions/proxy.js:10 | a response built from text has the given status and body, `content-type: text/plain;charset=UTF-8` and no CORS header |
| `Http.WithCorsSpec` | proxy.js:36-37 | the CORS rewrite sets both CORS headers, adds no other name and keeps every other header's value |
| `Text.ContainsIff` | functions/proxy.js:42-45 | `includes` answers yes iff the needle occurs at some index of the string |
| `Text.Truncate` | functions/proxy.js:34 | `substring(0, 200)` is a prefix of the text of length min(200, length) |
| `Text.ParseDecimalOfDecimal` | functions/proxy.js:34 | the decimal rendering of a status reads back as the same number |
| `Text.Decimal` | functions/proxy.js:34 | the rendering of a number is a non-empty run of digits with no leading zero |
| `Text.LowerSameUpToCase` | functions/proxy.js:61-66 | two names lower-case to the same key exactly when they differ only in the case of ASCII letters |
| `Text.Lower` | functions/proxy.js:61-66 | lower-casing keeps the length, yields a name with no upper-case letter and leaves lower-case names unchanged |

## Left out

- `fetch` itself: redirect following, DNS, TLS and the Workers runtime. Its outcome is a parameter.
- `new URL(...)` and `searchParams`. The extracted `url` value is an input, and a malformed URL is one more `TransportFailure` message. For a URL that `new Request(...)` cannot parse, the source throws before any request exists, while the model's `sent` still names the request it would have built.
- Streaming and backpressure of the response body. The body is an opaque sequence passed through unchanged.
- `async`/`await` and concurrent requests. The handler keeps no state between requests.
- Logging through `console.log` and `console.error`, including the 200-character body peek in the 415 branch, which only reaches the log.
- Checks of the `Response` constructor beyond the status: `statusText`, and the body check when a relayed response is copied. `fetch` gives a null body to a response whose status forbids one, so the copy never throws.
- The wording of the exceptions the `Response` constructor throws (a RangeError outside 200..599, a TypeError for status 304 with a text body) belongs to the runtime. `Http.ConstructorError` is a stand-in that names the status.
- Statuses 0..199 from upstream. `fetch` hands out no informational (1xx) response, and status 0 marks only network errors, on which `fetch` rejects, and opaque `no-cors` responses, which a request without that mode never gets. `FetchStatus` therefore spans 200..999.
- Header value normalisation by `Headers` (trimming whitespace, joining repeated fields with `, `). The model keeps one value per name.
- The decoding of the body by `response.text()`. The body is already a sequence of characters, and `readable` says whether reading it succeeds.
- Text.Truncate: lengths are counted in characters (Unicode scalar values), while `substring(0, 200)` counts UTF-16 code units. A body with characters outside the Basic Multilingual Plane is cut at a different place, and JavaScript may split a surrogate pair. The same applies to the snippet in StrictProxy.UpstreamErrorMirrored.
