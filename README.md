# trifid-plugin-renderer: the interception core, modelled in Dafny

The renderer plugin is an HTTP middleware sitting in front of handlers that produce
machine-readable graphs. For each request it negotiates the response type against the
configured alternative media types plus `html`. If anything other than `html` wins, the
request passes through untouched. If `html` wins it:

1. snapshots the request headers;
2. strips every request header except `host`, `x-forwarded-host` and `x-forwarded-proto`;
3. forces `accept` to the renderer's own `accept` value;
4. hijacks the response, so the downstream handler's body is buffered.

When the buffer is complete, the finish handler:

1. puts the snapshot back as the request headers;
2. sets status 413 when the body is longer than a non-zero `graphSizeLimit`;
3. stores the body in `res.locals.graph`;
4. drops every response header but `link` and `set-cookie`;
5. sets `content-type: text/html`;
6. calls exactly one renderer operation: `render` when the status is 200, `error` otherwise.

The project models this per request. Its parts:

- `wrappers.dfy` has `Option`.
- `headers.dfy` has the header maps and the two whitelists.
- `negotiation.dfy` has the offered media-type list and the negotiation gate. The negotiator is a function-typed parameter.
- `decimal.dfy` has JavaScript's decimal rendering of an integral status code, and its inverse.
- `renderer.dfy` has the renderer capability and the test suite's dummy renderer.
- `middleware.dfy` has the pure specification of each step and the class `Exchange`. `Exchange` is one request/response pair whose fields the middleware changes in place: `req.headers`, `res.statusCode`, `res._headers`, `res.locals.graph`, the written body, the snapshot and a trace of `next`/unhijack/dispatch events. It also holds, as a constant, the options the middleware was built with (index.js:18), which both `Handle` and `Finish` read. Its methods are proved against the specification functions. The source's two deletion loops walk an ordered array of names; the model's loops take the names from the key set in any order, and the result does not depend on the order.
- `scenarios.dfy` drives whole requests through `Exchange`, as the repository's tests do, using the dummy renderer.

Points of the code's behaviour that the model keeps as written:

- `res.locals.graph` receives the full body even when the 413 rule fires (index.js:68), so the error renderer can still see it.
- An empty buffer makes `getContentsAsString` yield `false` rather than `''`. The size test guards that case with `(graphString || '')` (index.js:62), but `res.locals.graph` is `false` (index.js:68), and the dummy renderer writes it as the text `false` (`Scenarios.EmptyBody`).
- Header names are compared by exact string equality (lodash `difference`, index.js:32, 72).
- Request headers are restored only by the finish handler (index.js:57). On the hijack-error path (index.js:40-44) and in the hijacked request's `next` (index.js:47-51), the request keeps its sanitised headers.

## Model

| member | source | states |
|---|---|---|
| `Negotiation.Offered` | index.js:19 | the offered list is the alternatives (empty when absent), then `"html"`, which is therefore present and last |
| `Negotiation.PassThroughChoice` | index.js:22-26 | with a negotiator whose answers are always offered types, a request that is not intercepted matched nothing or matched one of the configured alternatives |
| `Middleware.Sanitized` | index.js:32-37 | after sanitising, every request header is whitelisted or `accept`; whitelisted headers keep their values, absent ones stay absent; `accept` is the renderer's value |
| `Middleware.SizeChecked` | index.js:62-66 | the status becomes 413 exactly when the limit is set, non-zero and shorter than the body; a body of exactly the limit's length, an absent limit or a limit of 0 leave the status as the handler set it |
| `Middleware.BufferContents` | index.js:59 | the buffer's contents are `false` exactly when nothing was buffered and the text otherwise, never undefined; concatenated into a string they read `false` or the text |
| `Middleware.FinalResponseHeaders` | index.js:70-78 | the response headers are the handler's `link`/`set-cookie` headers with their values, plus `content-type: text/html`; with no handler headers, only `content-type` |
| `Middleware.FinishOutcome` | index.js:55-86 | finishing restores the snapshot exactly, applies the size rule, exposes the whole buffer contents (`false` for an empty buffer) as the graph in both branches, filters the headers, and takes the render branch iff the final status is 200 (so never for an oversized body); the renderer is called on the restored request headers and the filtered response headers |
| `Middleware.Exchange.SetStatus` | index.js:63 | `res.status(code)` sets the status and nothing else |
| `Middleware.Exchange.SetHeader` | index.js:78 | `res.setHeader` adds or replaces one response header, creating the header map when there was none |
| `Middleware.Exchange.RemoveHeader` | index.js:73 | `res.removeHeader` drops one response header; with no header map it does nothing |
| `Middleware.Exchange.DeleteRequestHeader` | index.js:33 | `delete req.headers[name]` drops one request header |
| `Middleware.Exchange.SetRequestHeader` | index.js:37 | assigning `req.headers[name]` adds or replaces one request header |
| `Middleware.Exchange.Handle` | index.js:21-37 | a request not negotiated to `html` is left untouched and no snapshot is taken; otherwise the snapshot is the original headers and the request headers become `Sanitized`; either way the response is untouched and `next()` is called once, without an error |
| `Middleware.Exchange.Hijacked` | index.js:39-45 | a hijack error releases the interception and passes the error to `next`; success starts buffering |
| `Middleware.Exchange.ForwardNext` | index.js:46-51 | the hijacked request's `next` releases the interception before passing the error on, whenever it is called after a successful hijack (while buffering, again after a release, or by the renderer after the finish handler); a finished request stays finished |
| `Middleware.Exchange.RemoveUnlistedHeaders` | index.js:70-75 | the removal loop leaves exactly the whitelisted response headers, values unchanged, and does nothing when no header was set |
| `Middleware.Exchange.Dispatch` | index.js:80-85 | the body is the renderer's page when the status is 200 and its error page otherwise, both over the current request headers, status, response headers and graph, and the matching dispatch event is appended |
| `Middleware.Exchange.Finish` | index.js:55-86 | the request headers are the snapshot, the status follows the size rule, the graph is the buffer contents of the whole body, the response headers are the filtered ones plus `content-type: text/html`, the body is the page `Dispatch` chooses, exactly one dispatch event is appended, and the whole result agrees with `FinishOutcome` |
| `Decimal.NatToDecimal` | test/support/dummy-renderer.js:11 | the numeral of a natural number is a non-empty digit string without a leading zero |
| `Decimal.IntToDecimal` | test/support/dummy-renderer.js:11 | the numeral starts with a minus sign exactly for negative numbers |
| `Decimal.ParseIntToDecimal` | test/support/dummy-renderer.js:11 | reading back the numeral of any integer gives that integer |
| `Decimal.IntToDecimalInjective` | test/support/dummy-renderer.js:11 | distinct status codes give distinct numerals |
| `Decimal.StatusCodeNumeral` | test/support/dummy-renderer.js:11 | a three-digit status code is written as its three digits |
| `Renderers.DummyRenderer` | test/support/dummy-renderer.js:1-4 | the dummy renderer's `accept` is `application/ld+json` |
| `Renderers.DummyRender` | test/support/dummy-renderer.js:6-8 | the page is the fixed prefix, the graph verbatim, then the fixed suffix; the graph can be cut back out |
| `Renderers.DummyError` | test/support/dummy-renderer.js:10-12 | the error page has the same prefix and suffix as the render page |
| `Renderers.DummyErrorOnlyStatus` | test/support/dummy-renderer.js:10-12 | the error page depends on the status code only, never on the graph or the headers |
| `Renderers.DummyErrorInjective` | test/support/dummy-renderer.js:11 | the error page determines the status code it reports |
| `Scenarios.PassThrough` | index.js:22-26 | a request negotiated to anything but `html` keeps its headers and status 200, the renderer writes nothing (`body == None`), and only `next()` happens |
| `Scenarios.JsonPassesThrough` | test/test.js:18-101 | `accept: application/json` with no alternatives, and the q-value header with `application/json` configured, both pass through unchanged |
| `Scenarios.HandlerView` | test/test.js:46-72 | for the HTML test request the handler sees only `host` and `accept: application/ld+json` |
| `Scenarios.RenderGraph` | test/test.js:46-72 | the JSON body `{"key":"value"}` comes back wrapped by the dummy renderer as `text/html`, the JSON headers are gone, and the request headers are the original ones |
| `Scenarios.ErrorStatus` | index.js:80-85 | a handler status of 404 takes the error operation, whose page carries `{"status": 404}` |
| `Scenarios.OverLimit` | index.js:62-68 | a 15-character body over a limit of 14 gives status 413 and the error page for 413, with the full body still in the graph |
| `Scenarios.AtLimit` | index.js:62 | a 15-character body with a limit of 15 is rendered with status 200 |
| `Scenarios.RestoreRequestHeaders` | test/test.js:103-143 | whatever request header the handler adds or deletes, after finishing the request headers are exactly the original ones, and the trace is `next()` followed by exactly one renderer call |
| `Scenarios.EmptyBody` | index.js:59-68 | a handler that writes nothing leaves `false` in the graph, and the dummy page carries the text `false` |
| `Scenarios.NextAroundFinish` | index.js:47-57 | a `next` call while buffering and another after the finish handler each release the interception and pass their error on; the finish handler still restores the request headers and calls the renderer once in between |
| `Scenarios.DummyFinishedPage` | test/support/dummy-renderer.js:6-12 | with the dummy renderer, finishing writes the graph page (with `false` for an empty buffer) for a final status of 200 and the status page otherwise |
| `Scenarios.DummyOversizedPage` | index.js:62-85 | with the dummy renderer, an oversized body always yields the error page for 413 |

## Left out

- The negotiation algorithm of the `accepts` library (index.js:1, 22-24) is not modelled. It implements Accept-header precedence under section 5.3.2 of RFC 7231 and is a foreign call. The negotiator is a parameter. `SoundNegotiator` states the one property relied on: any answer is an offered type. The scenarios take the answers the tests rely on as preconditions.
- The `hijackresponse` and `stream-buffers` plumbing (index.js:4-5, 53, 55, 88) is not modelled: the hijack callback scheduling, `res.pipe`, the `finish` event and the writes into the buffer. They are event-driven stream code. The finished body arrives as a string argument of `Finish`. The hijack outcomes are modelled as the `Hijacked` and `ForwardNext` steps with their trace events.
- The `stream-buffers` library is not part of this model. `BufferContents` takes from it only that reading an empty buffer yields `false`.
- UTF-8 decoding of the buffer (index.js:59) is not modelled. The body is taken as a string, and its length is the number of characters, not JavaScript's UTF-16 code units.
- The `renderer(router, options)` factory (index.js:95-105) is left out. It covers `mountAll`, `moduleLoader.require` and renderer construction, which are module-loading glue.
- `graphSizeLimit` is an integer or absent. JavaScript's truthiness and comparison of other values (strings, fractions, `NaN`) are not modelled.
- Node lower-cases header names in `req.headers` and `res._headers`. The model takes names as given and compares them exactly.
- Headers are value maps. The shallow clone of lodash `clone` and any aliasing of the header object are not modelled.
- The renderer writes its page in one step, the `body` field. Asynchronous writes and `res.end` semantics are left out. JavaScript's exponent notation for integers from 1e21 on (22 digits and more) is not modelled either, since status codes are three digits.
- The express/supertest harness of test/test.js is not modelled; the scenario methods restate its requests.
