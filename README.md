# BOKads signal search: the JSON-RPC client, the two search handlers and the dev file server

This project models, in Dafny, the four pieces of the agentic-future BOKads
demo that carry an actual contract:

- **The browser MCP client** (`src/mcpClient.ts`). It frames a JSON-RPC 2.0
  request, POSTs it to the fixed MCP endpoint with JSON-only headers, and
  classifies the settled response in source order: network failure,
  non-2xx status, event-stream content type, undecodable body, an `error`
  member in the envelope, and otherwise success. `listTools` and
  `getSignals` are the two callers. Module `McpClient`.
- **The Vercel search function** (`api/bokads/search.js`). It sets the CORS
  headers, answers a preflight, refuses other methods and a missing `spec`,
  and otherwise replies 200 with what `fetchRealBOKadsData` returns. That
  helper POSTs one fixed `tools/call` envelope upstream, normalises
  `result.content`, and turns every failure into an empty result whose
  message names the failure. Module `BokadsSearch`.
- **The Express proxy route** `GET /api/bokads/search` (`bokads-proxy.js`).
  It checks `spec`, calls the A2A endpoint, maps every thrown error to a 500
  with the error's message as `details`, passes an upstream `error` member
  through as a 500, and otherwise normalises `data.signals`. As written, a
  truthy `principal` makes the route assign to the `const` URL, so such a
  request always ends in the 500 branch; the model keeps that behaviour.
  Module `BokadsProxy`.
- **The development file server's `end_headers`** (`server.py`). It adds at
  most one Content-Type, chosen by an ordered, case-sensitive `endswith`
  chain on the raw request path, then three cache headers, and then lets
  the base class close the header block. Module `StaticServer`.

Shared modules: `Wrappers` (Option, Result), `Js` (decoded JSON values,
JavaScript truthiness, `?.` and plain `.` property reads, `||`, a throwing
`.map`, `toFixed`, template-literal text), `Http` (the settled fetch result
as an input record, the outgoing request, and the `res` object of
Vercel/Express as a class whose methods set headers, status and body),
`BokadsFormat` (the coverage and CPM columns, the default description and
the count message that both handlers write identically).

The network is never modelled: a settled `fetch` plus `response.json()` is
the input `FetchResult`, either `Rejected(message)` or
`Reply(status, statusText, contentType, body)`, where the body either
decoded (`Parsed`) or threw (`Unparsable`). `response.ok` is
`200 <= status <= 299`. Clock readings (`Date.now()` request ids and
`ctx_<time>_...` context ids) are parameters or left symbolic.

The client sends no handshake. Its own failures (non-ok status, event
stream, MCP error) are one `Error` class whose message tells them apart;
a rejected fetch, a body `response.json()` cannot decode and the TypeError
of reading `error` on a null envelope are raised by the platform and let
through. `McpClient.Outcome` has one constructor for each of these.

## Model

| member | source | states |
|---|---|---|
| McpClient.CreateJsonRpcRequest | src/mcpClient.ts:37-44 | The serialised request has `jsonrpc` "2.0" and carries the given id, method name and params unchanged; absent params leave no `params` key. |
| McpClient.RequestRoundTrip | src/mcpClient.ts:37-44 | Reading the serialised request object back gives the same request: framing loses nothing. |
| McpClient.RequestNeverAcceptsEventStream | src/mcpClient.ts:49-57 | Every call is sent with Content-Type and Accept both application/json, and no header value mentions text/event-stream. |
| McpClient.Classify | src/mcpClient.ts:59-74 | A rejected fetch fails with its message; a non-ok status fails with that status; an ok event-stream reply fails as a stream error exactly when the content type contains text/event-stream; success happens exactly when the status is ok, the type is not a stream, the body decoded to a non-null value and its `error` member is falsy, and then the envelope is returned unchanged; an undecodable body, a null envelope and a truthy `error` member each decide their own outcome exactly when the earlier checks pass, the last carrying the error's code and message. |
| McpClient.HttpStatusDecidesFirst | src/mcpClient.ts:59-61 | Two replies with the same failing status settle alike whatever their content types and bodies. |
| McpClient.StreamDecidedBeforeBody | src/mcpClient.ts:63-66 | An ok event-stream reply fails the same way whatever its body holds. |
| McpClient.JsonReplyIsNeverStreamError | src/mcpClient.ts:63-66 | A reply typed application/json is never refused as an event stream. |
| McpClient.McpErrorMessageCarriesCodeAndText | src/mcpClient.ts:70-72 | The thrown message starts with "MCP error: " and contains the rendered error message and the rendered code. |
| McpClient.MethodNotFoundReplyFails | src/mcpClient.ts:70-72 | A 200 reply whose envelope holds a -32601 "Method not found" error fails with that code and message. |
| McpClient.ToolsListReplyReturnedWhole | src/mcpClient.ts:74 | A 200 non-stream reply whose envelope holds a tools `result` is returned whole. |
| McpClient.ListToolsFraming | src/mcpClient.ts:80-82 | listTools POSTs to the MCP endpoint one request for "tools/list" with the given id and no `params` key. |
| McpClient.GetSignalsFraming | src/mcpClient.ts:87-99 | getSignals sends "tools/call" naming the tool "get_signals" with the query verbatim; `deliver_to` is present exactly when a target is supplied, and then reads back as that target. |
| McpClient.DeliverToRoundTrip | src/mcpClient.ts:31-34 | A delivery target (platforms "all" or a list of platform/account pairs, optional countries) serialises and reads back unchanged. |
| McpClient.AccountsRoundTrip | src/mcpClient.ts:32 | A list of platform/account entries serialises and reads back unchanged, in order. |
| McpClient.StringsRoundTrip | src/mcpClient.ts:33 | A list of country codes serialises and reads back unchanged, in order. |
| Js.MapOrThrow | api/bokads/search.js:85-94 | `.map` with a throwing callback succeeds exactly when every callback does, then keeps length and order with each result the callback's; otherwise it throws the error of the first element whose callback throws. |
| Js.ToFixed | api/bokads/search.js:89 | `toFixed(f)` writes a leading "-" exactly for negative numbers and, for f > 0, exactly f digits after a decimal point. |
| BokadsFormat.Coverage | api/bokads/search.js:89 | The coverage column is "Unknown" exactly when `coverage_percentage` is falsy, is the one-decimal toFixed text plus "%" for a truthy number, and throws exactly for a truthy non-number. |
| BokadsFormat.Cpm | api/bokads/search.js:90 | The CPM column is "Unknown" exactly when `pricing?.cpm` is falsy, is "$" plus the two-decimal toFixed text for a truthy number, and throws exactly for a truthy non-number. |
| BokadsSearch.NormaliseSignal | api/bokads/search.js:85-94 | A signal normalises unless it is null or its coverage or CPM throws; then name and id come from `name` and `signals_agent_segment_id`, source is "BOKads", and type, platform and description fall back to "marketplace", "LiveRamp (Bridge)" and the default description when falsy. |
| BokadsSearch.FetchRealBokadsData | api/bokads/search.js:52-117 | The message starts with the failure prefix exactly when the try block throws; a failure gives no signals, no proposals, the prefixed error message and an error context id; a success gives the count message and a real context id. |
| BokadsSearch.UpstreamIsOneJsonRpcCall | api/bokads/search.js:55-72 | The upstream request POSTs to the MCP URL a JSON-RPC 2.0 "tools/call" with id 1 whose arguments are exactly the spec and the limit. |
| BokadsSearch.FailureFallsBackToEmpty | api/bokads/search.js:74-115 | A rejected fetch, a non-ok status, an undecodable body, a null envelope or an upstream `error` member yields no signals, no proposals and a prefixed message; the rejection, the status code, the decode error and the null-read TypeError are each named after the prefix. |
| BokadsSearch.SignalsFollowContent | api/bokads/search.js:84-104 | On success the signals follow `result.content` element by element, a missing list gives none, the message counts them, and `custom_segment_proposals` passes through with [] as its default. |
| BokadsSearch.Handler | api/bokads/search.js:8-47 | The handler adds the three CORS headers to those already set, and leaves status, body and upstream request as the decision table gives them. |
| BokadsSearch.HandlerDecisionTable | api/bokads/search.js:14-38 | OPTIONS gets an empty 200, any other non-GET a 405, a GET with a falsy spec a 400; a GET with a truthy spec gets 200 with what fetchRealBOKadsData returns, after one upstream request whose limit defaults to 5; every status is 200, 400 or 405, and an upstream request is made exactly when a search result is sent. |
| BokadsProxy.NormaliseSignal | bokads-proxy.js:79-88 | As the Vercel normaliser, except the id is taken from `id`, the type defaults to "Audience" and the platform has no default. |
| BokadsProxy.Search | bokads-proxy.js:38-107 | The route leaves headers untouched and sets the status, body and A2A request that the route's decision table gives, the catch block included. |
| BokadsProxy.MissingSpecIsRefused | bokads-proxy.js:40-44 | A missing or empty spec is answered 400 "Missing signal specification" before anything is fetched. |
| BokadsProxy.PrincipalAlwaysFails | bokads-proxy.js:49-52 | With a truthy principal the route fails with 500 and the const-assignment TypeError whatever the A2A endpoint would answer, and makes no A2A request. |
| BokadsProxy.UpstreamFailureIs500 | bokads-proxy.js:63-65 | A rejected fetch or a non-ok status ends in the catch block: 500 with the rejection message or "A2A endpoint returned <status>: <text>" as details. |
| BokadsProxy.A2aCallCarriesSpecAndLimit | bokads-proxy.js:40-49 | Past the spec and principal checks, the one A2A request carries the spec as `query` and the limit, 5 when absent, as `max_results`. |
| BokadsProxy.ThrownErrorsAre500 | bokads-proxy.js:63-105 | The try block throws exactly on a rejected fetch, a non-ok status, an undecodable or null body, a non-list `signals` or a throwing normalisation (naming the undecodable and null-body messages), and every such throw ends as 500 with the message as details after the A2A request. |
| BokadsProxy.ErrorMemberPassedThrough | bokads-proxy.js:69-76 | A truthy upstream `error` member is sent as the 500 details unchanged. |
| BokadsProxy.SuccessFollowsSignals | bokads-proxy.js:63-98 | A request with a spec and no principal whose reply is ok, decodes to a non-null value without a truthy `error` and whose signals normalise gets 200 with the results after the A2A request; the signals follow `data.signals` element by element, proposals default to [], and message and context id take the upstream values when truthy, else the count message and a generated id. |
| StaticServer.EndsWithIsSliceEquality | server.py:9 | The character-wise suffix test is Python's `s[len(s)-len(suffix):] == suffix`. |
| StaticServer.RequestHandler.SendContentType | server.py:9-24 | Appends to the header buffer exactly the one Content-Type line the if/elif chain selects, or nothing. |
| StaticServer.RequestHandler.EndHeaders | server.py:7-31 | Writes the headers buffered before the call, then the Content-Type of the first matching suffix in table order (if any), then the three cache headers, then the blank line, and leaves the buffer empty. |
| StaticServer.RequestHandler.CloseHeaderBlock | server.py:31 | The base class's end_headers flushes the buffer followed by the blank line. |
| StaticServer.ChainIsFirstMatch | server.py:9-24 | The if/elif chain chooses exactly what a first-match lookup in the ordered suffix table chooses. |
| StaticServer.SuffixTableIsSuffixFree | server.py:9-24 | No suffix of the chain ends with another one, so at most one test can match a path. |
| StaticServer.SuffixesNest | server.py:9-24 | Two suffixes of one path nest: the shorter ends the longer. |
| StaticServer.MatchIsChosen | server.py:9-24 | In a suffix-free table the entry a path matches is the one chosen, wherever it stands. |
| StaticServer.NoMatchNoType | server.py:9-24 | A path gets no type exactly when it matches no suffix of the table. |
| StaticServer.NoSuffixNoType | server.py:9-24 | A path that fails all nine tests gets no Content-Type. |
| StaticServer.SuffixGetsItsType | server.py:9-24 | A path ending in any listed suffix gets that suffix's type, whatever else it looks like. |
| StaticServer.JsonIsNotScript | server.py:13-16 | A ".json" path is served as application/json, not as JavaScript. |
| StaticServer.JpegSpellings | server.py:19-20 | Both ".jpg" and ".jpeg" get image/jpeg. |
| StaticServer.UpperCaseSuffixUnmatched | server.py:9-24 | Matching is case-sensitive: a path ending in ".HTML" gets no Content-Type. |
| StaticServer.HeaderBlockShape | server.py:9-29 | At most one Content-Type is added and only first; the three cache headers always come last, in order; no type is added exactly when no suffix matches. |

## Left out

- The network, `fetch` and `response.json()`: the settled result is an input record, so timeouts, retries and streaming bodies are not modelled.
- `connectSSE` (src/mcpClient.ts:105-126): it opens an EventSource, which is I/O with callbacks.
- `src/exampleUsage.ts`, `app.js` and `api/health.js` are not part of this model: they are callers, UI glue and a status endpoint.
- Clock values: the default request id `Date.now()` is the `id` parameter, and generated context ids keep only their fixed suffix (`Generated("bokads_real")`).
- Console logging in both handlers and the Python server's `__main__` (TCP server, `serve_forever`): output and process start-up only.
- `parseInt(limit)` in the Vercel function and the raw `limit` string in the proxy's URL: `Query.limit` is already an integer, so a non-numeric limit (NaN, sent as JSON `null`) is not modelled.
- `encodeURIComponent` and the A2A URL text: `BokadsProxy.A2aCall` records the `query` and `max_results` values, not the encoded URL.
- CORS middleware and `express.json` of the proxy app: they act outside the route.
- The catch block of the Vercel handler (api/bokads/search.js:40-46): nothing in its try block can throw once `fetchRealBOKadsData` swallows every failure, so no modelled path reaches it.
- Floating point: JSON numbers are exact reals, so binary rounding of doubles is not modelled.
- Js.ToFixed: its contract states the sign, the decimal point and the digit positions, not the digits' values; numbers of magnitude 10^21 or more, which JavaScript writes with `ToString`, are not handled.
- Js.NumberText: `${x}` for a non-integral number is its exact decimal expansion cut after 17 digits, not JavaScript's shortest round-tripping form, and integers of 10^21 or more and magnitudes below 10^-6 are written in plain decimals where JavaScript uses exponent form ("1e+21", "1e-7").
- StaticServer.RequestHandler.EndHeaders: whatever the base class buffered before the call (its own Content-Type from `send_head` included) is carried through as the old buffer and not modelled further.
- Headers set by the frameworks themselves: `res.json` in Express and Vercel also sets `Content-Type: application/json`, and `res.end`/`res.json` finalise the response; `Http.ServerResponse.SendJson` and `End` record only the body, so `BokadsProxy.Search` and `BokadsSearch.Handler` state only the headers the handlers set themselves.
- Repeated query keys: `spec`, `limit` and `principal` are taken to be single strings, so a key given twice (an array in Vercel and Express, for which `!spec` is false and `${spec}` joins the values with commas) is not modelled.
