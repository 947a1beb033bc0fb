# AppStoreAPI lookup client, modelled in Dafny

This project models the decision logic of a small Swift client for the App Store Server API's
transaction lookup. The client:

- signs a short-lived ES256 token from the developer's API key credentials;
- sends an authenticated GET to the sandbox or production `inApps/v1/lookup/{orderId}` endpoint
  through a generic request helper with optional retry;
- turns the response into the decoded transaction claims or an error message.

Modules, one per source file or concern:

- `Wrappers`: `Option`, for Swift's optionals.
- `Foundation`: the Foundation values the client handles (`Data`, JSON values, `URL`,
  `URLQueryItem`, `URLRequest`, a `dataTask` response). It also holds `Kit`, a record of the
  Foundation calls the client makes (URL and URLComponents parsing, `absoluteString`,
  `JSONSerialization` in both directions, UTF-8 conversions). These calls stay opaque: each is a
  function-valued parameter.
- `HttpApi` (`API.swift`):
  - the `HttpMethod` enum;
  - request construction, as a specification function `RequestFor` and the step-by-step method
    `BuildRequest` proved equal to it;
  - the `Api` class, with its instance field `retryCount` and `Request`. `Request` runs the chain
    of attempts as a loop. The transport is a function from (attempt number, request) to that
    attempt's response.
- `Curl` (`API.swift`): the `URLRequest.cURL(pretty:)` renderer, as a specification function and
  the accumulating method proved equal to it.
- `Claims`: the value records `AppDevInfo`, `CustomClaims` and `TransactionClaims`.
- `Decimal`: how `"\(code)"` renders the status code, with a round-trip lemma.
- `AppStore` (`AppStoreAPI.swift`):
  - endpoint selection and token assembly (`getJWTToken`);
  - response classification, and the decode-and-filter loop;
  - the `AppStoreApi` class, whose `RequestForTransaction` ties everything together.

  Token signing and token decoding (SwiftJWT) are the opaque functions of `Jwt`.

Behaviours of the code that the model keeps as they are:

- The attempt counter `retryCount` is a field of the `API` instance, shared by every request
  made through it. It is reset only when a chain delivers its outcome. For a single chain that no
  other request touches, `Attempts(retry, startCount)` gives the number of attempts from the count
  it starts at: 3 from a reset counter with retry on. Its contract gives 3, 2 and 1 attempts from
  starting counts 0, 1 and 2. When two chains interleave on one instance, the outcome depends
  on timing, which the model does not capture (see "## Left out"). `AppStoreAPI` creates a fresh
  `API()` for each lookup, so its lookups are single chains starting from 0.
- The token's claims read the clock twice (`iat: Date()` and `exp: Date() + 300`). The model
  takes the two readings as separate parameters. The expiry is exactly issued-at + 300 s only
  when the two readings are equal.
- Retries happen whatever the status: a successful attempt is repeated as well. A retry
  re-issues url, method, parameters and headers, but not `bodyData`. For a non-GET request
  with explicit body bytes, the retry therefore sends the JSON encoding of the parameters.
  `Api.Request` states both.

## Model

| member | source | states |
|---|---|---|
| `HttpApi.QueryItems` | Sources/APPStoreAPI/API.swift:54-61 | each parameter yields exactly one query item, in order |
| `HttpApi.ResolveUrl` | Sources/APPStoreAPI/API.swift:43-69 | unparsable URL string gives no URL (the -1 sentinel); query items only for GET with non-empty parameters, one per parameter, String values verbatim and others via their description; a failure of URLComponents or of `components.url` gives no URL; otherwise the URL is the string unchanged |
| `HttpApi.RequestFor` | Sources/APPStoreAPI/API.swift:72-93 | the request exists iff the URL does; it has method = raw value, 10 s timeout, local cache ignored, Content-Type: application/json first and then every caller header; no body for GET; for other methods the explicit body bytes when present, else the JSON encoding of the parameters |
| `HttpApi.BuildRequest` | Sources/APPStoreAPI/API.swift:43-93 | the guards, field-by-field updates and header loop produce exactly `RequestFor` |
| `HttpApi.OutcomeOf` | Sources/APPStoreAPI/API.swift:103-114 | the delivered code is the HTTP status, or 0 for a non-HTTP response; success holds iff 200 <= code < 300; the data is passed through |
| `HttpApi.Attempts` | Sources/APPStoreAPI/API.swift:98-115 | between 1 and 3 attempts; from a zero counter exactly 3 with retry and 1 without; for a chain no other request touches, `maxRetry` minus the starting count with retry (3, 2, 1 from 0, 1, 2), and 1 whenever the first increment already reaches `maxRetry` |
| `HttpApi.Api.constructor` | Sources/APPStoreAPI/API.swift:24-28 | a new client starts with `retryCount` 0 |
| `HttpApi.Api.CompleteAttempt` | Sources/APPStoreAPI/API.swift:97-116 | each completed attempt adds one to `retryCount`; another attempt is scheduled iff retry is on and fewer than `maxRetry` attempts are counted, whatever the status; otherwise the counter goes back to 0 and the outcome is delivered |
| `HttpApi.Api.Request` | Sources/APPStoreAPI/API.swift:35-120 | an unparsable URL completes at once with (nil, -1, false), sends nothing and leaves the counter alone; otherwise `Attempts(retry, counter)` requests go out, the first as built and each retry rebuilt without `bodyData`; the single outcome is the last attempt's, and the counter is 0 afterwards |
| `Curl.Curl` | Sources/APPStoreAPI/API.swift:196-218 | the command starts with "curl " and is made of the method part, URL part, header lines and data part in that order, with nothing else |
| `Curl.CurlString` | Sources/APPStoreAPI/API.swift:196-218 | the accumulating renderer produces exactly `Curl`: "curl ", method part, URL part, header lines, data part |
| `Curl.HeaderLinesAppend` | Sources/APPStoreAPI/API.swift:205-209 | rendering two header lists one after the other equals rendering their concatenation, so accumulating line by line is sound |
| `Curl.CurlStartsWithMethod` | Sources/APPStoreAPI/API.swift:197-215 | the output starts with "curl " then `-X ` (or `--request ` when pretty) and the method, GET when the request has none |
| `Curl.CurlShowsUrl` | Sources/APPStoreAPI/API.swift:199-215 | right after "curl " and the method part comes the URL part: `--url '<absoluteString>' ` plus a backslash line break when pretty, `'<absoluteString>' ` otherwise, `''` for a request without a URL |
| `Curl.CurlShowsEveryHeader` | Sources/APPStoreAPI/API.swift:205-209 | every header field appears as its own `-H '<name>: <value>' ` line (`--header`, with a backslash line break, when pretty) at the returned offset |
| `Curl.CurlDataIff` | Sources/APPStoreAPI/API.swift:211-215 | the output ends with `--data '<body>'` when the body is non-empty valid UTF-8; otherwise it ends after the header lines |
| `Decimal.NatToString` | Sources/APPStoreAPI/AppStoreAPI.swift:58 | a natural number renders as at least one digit, with no leading zero; a string starting with 0 is exactly "0", the rendering of 0 |
| `Decimal.IntToString` | Sources/APPStoreAPI/AppStoreAPI.swift:58 | the interpolated code starts with a minus sign iff it is negative, followed by the digits of its magnitude |
| `Decimal.IntToStringRoundTrip` | Sources/APPStoreAPI/AppStoreAPI.swift:58 | every interpolated status code (negative ones included) reads back as itself |
| `AppStore.LookupUrl` | Sources/APPStoreAPI/AppStoreAPI.swift:27-31 | the sandbox lookup prefix plus the order id in the sandbox, the production prefix plus the order id otherwise |
| `AppStore.LookupUrlsDistinct` | Sources/APPStoreAPI/AppStoreAPI.swift:27-31 | sandbox and production lookups never share a URL; within one environment the URL determines the order id |
| `AppStore.TokenHeader` | Sources/APPStoreAPI/AppStoreAPI.swift:69 | the token header has typ "JWT" and kid = the API key id |
| `AppStore.TokenClaims` | Sources/APPStoreAPI/AppStoreAPI.swift:76-80 | iss = issuer id, aud = ["appstoreconnect-v1"], bid = bundle id, iat = first clock reading, exp = second reading + 300 s |
| `AppStore.JwtToken` | Sources/APPStoreAPI/AppStoreAPI.swift:68-93 | exactly one of token and error; key material that is not UTF-8 gives "Invalid private key"; a signer failure gives "Failed to sign"; otherwise the token is the signer's output over that header, those claims and the key bytes |
| `AppStore.LookupRequest` | Sources/APPStoreAPI/AppStoreAPI.swift:31 | the lookup is a GET to the lookup URL, with no body, whose headers are Content-Type and then only `Authorization: Bearer <token>`; it exists iff the URL parses |
| `AppStore.StringArray` | Sources/APPStoreAPI/AppStoreAPI.swift:40 | an array converts to strings iff every element is a string, and then element by element |
| `AppStore.SignedTransactions` | Sources/APPStoreAPI/AppStoreAPI.swift:40 | there is a list iff the key `signedTransactions` is present, its value is an array and every element is a string; the list then holds those strings in order |
| `AppStore.Decoded` | Sources/APPStoreAPI/AppStoreAPI.swift:41-49 | never more records than signed transactions |
| `AppStore.DecodedAppend` | Sources/APPStoreAPI/AppStoreAPI.swift:41-49 | decoding a concatenation is the concatenation of the decodings: input order is kept |
| `AppStore.DecodedMembership` | Sources/APPStoreAPI/AppStoreAPI.swift:43-48 | a record is in the result iff some signed transaction decodes to it, so failed entries are dropped, never replaced |
| `AppStore.DecodedAllOrNone` | Sources/APPStoreAPI/AppStoreAPI.swift:40-51 | every entry is kept iff all decode; the result is empty iff none decodes |
| `AppStore.WellFormedAndMalformed` | Sources/APPStoreAPI/AppStoreAPI.swift:43-48 | one well-formed and one malformed token, in either order, give exactly the well-formed token's claims |
| `AppStore.DecodeTransactions` | Sources/APPStoreAPI/AppStoreAPI.swift:41-49 | the appending loop yields exactly `Decoded` |
| `AppStore.NoDataFoundCarriesCode` | Sources/APPStoreAPI/AppStoreAPI.swift:58 | the "No data found. Https status: " message ends with the status code, readable back as that code |
| `AppStore.Classify` | Sources/APPStoreAPI/AppStoreAPI.swift:35-59 | exactly one of transactions and error; no body or a non-object body gives "No data found. Https status: N"; a missing, non-string-array or empty `signedTransactions` gives "No transaction found"; otherwise the decoded list with no error, even when empty |
| `AppStore.HandleResponse` | Sources/APPStoreAPI/AppStoreAPI.swift:31-60 | the completion handler yields exactly `Classify` of body and code; the `success` flag plays no part |
| `AppStore.AppStoreApi.constructor` | Sources/APPStoreAPI/AppStoreAPI.swift:14-18 | the client keeps the environment flag it is given |
| `AppStore.AppStoreApi.RequestForTransaction` | Sources/APPStoreAPI/AppStoreAPI.swift:20-65 | exactly one of transactions and error; without a token, `onDone(nil, error)` and no request; with one, exactly one GET attempt (retry off, fresh client) to the lookup URL with the bearer header, classified by body and code |
| `AppStore.SandboxLookupScenario` | Sources/APPStoreAPI/AppStoreAPI.swift:22-31 | in the sandbox, order 1000000123456789 goes to the sandbox lookup URL by GET, with a bearer token signed over a header whose kid is the API key id |

## Left out

- URLSession, `dataTask`/`resume`, and the hops between the main and background dispatch queues
  with the 0.5 s `asyncAfter` delay are asynchronous I/O and scheduling. The transport is a
  parameter `(attempt, request) -> response`, and the chain of attempts is a sequential loop.
  `retryDuration` is kept as a constant only.
- The `[weak self]` check before a retry (API.swift:107) is not modelled. If the `API` instance
  is released between attempts, the source neither retries nor calls the completion; in the
  model the instance always survives.
- Two chains interleaving on one `API` instance are not modelled. The `Api.Request` and
  `Attempts` counts hold only for a chain that no other request touches. With interleaving, the
  counts and the at-most-3 bound are lost. Example: chain A has its third attempt in flight with
  the counter at 2, and chain B starts with retry on. A's attempt raises the counter to 3, then
  B's first attempt raises it to 4. A then sees 4 >= 3 and resets the counter to 0 before
  delivering, while B sees 0 < 3 and retries. B ends up making four attempts.
- The Foundation calls (`URL(string:)`, `URLComponents`, `components.url`, `absoluteString`,
  percent-encoding of query items, `JSONSerialization` in both directions, UTF-8 conversions) are
  opaque functions of `Kit`. They are foreign code.
- Foundation merges repeated header names, case-insensitively and comma-separated, into
  `allHTTPHeaderFields`. The model keeps the `addValue` calls as an ordered log instead, and
  `cURL` renders that log.
- Swift dictionaries have no defined iteration order. `headers` and `parameters` are sequences
  in the model, standing for one iteration order. Their order in the request only follows
  that sequence.
- Signing (ES256 over JWS compact serialization, base64url) and decoding of signed
  transactions (SwiftJWT) are the opaque functions of `Jwt`. They involve cryptography in
  foreign code. Signature verification of transactions is absent in the source too.
- `Date()` readings are parameters, and dates are `real` seconds, because they come from the
  wall clock.
- Debug output is not modelled: `logRequest`, `logResponse`, `print`, `debugPrint`, and the
  printing of `json["status"]` (AppStoreAPI.swift:36-38).
- Package.swift is the build manifest.
