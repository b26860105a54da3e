# xAI API proxy: request mapping, in Dafny

This project models the request-mapping logic of a small HTTP proxy that runs as a
Cloudflare Worker. The proxy has three parts:

- **Path resolver.** It rewrites an inbound pathname into the `/v1/...` namespace:
  - the root and bare `/v1` paths become `/v1/chat/completions`;
  - any other path outside `/v1/` gets `/v1` prepended.

  It then strips one leading `/v1` and places the result after the fixed base
  `https://api.xai.com/v1`, followed by the unchanged search string.
- **CORS header policy.** It maps the request's `Origin` header and a static
  allow-list (shipped as `["*"]`) to four response headers:
  - `Access-Control-Allow-Origin`, which echoes a permitted origin and otherwise
    falls back to the first allow-list entry or `""`;
  - fixed allowed methods;
  - fixed allowed headers;
  - a fixed max-age of `86400`.

  These headers are merged in place into a response's header set, or sent alone
  as the answer to a preflight.
- **Dispatch.** An `OPTIONS` request gets a 204 with only the CORS headers, and
  the upstream is never called. Any other request is forwarded once, with its
  method, headers and body unchanged and redirects followed. An upstream response
  is relayed with its status, status text and body, plus the CORS headers. A
  failed upstream call becomes a 500 with the body
  `{"error":"Failed to proxy request"}`, a JSON content type and the CORS headers.

Files:

- `http.dfy` (module `Http`) holds the value types: request, upstream request,
  upstream outcome (`Reached` or `Failed`), response and body. It also holds a
  mutable `Headers` class whose `Set` updates a header map in place.
- `paths.dfy` (module `Paths`) holds the resolver and its properties.
- `cors.dfy` (module `Cors`) holds the CORS policy, the in-place merge
  `AddCorsHeaders` (a loop of `set` calls) and the preflight answer.
- `proxy.dfy` (module `Proxy`) holds the dispatch as a pure function `Handle` of
  the request and of the upstream call. The upstream call is passed in as a
  function from the request sent to its outcome. The imperative `Fetch` copies
  the upstream headers into a fresh `Headers` object, merges the CORS headers
  into it in place, and is proved equal to `Handle`.

Three behaviours of the resolver are easy to miss:

- An empty pathname is not treated like the root. It becomes `/v1/`, so the
  upstream suffix is `/` (`Paths.RelativePathTarget`).
- Idempotence needs care:
  - `ResolvePath` is idempotent on every non-empty pathname, but not on `""`
    (`Paths.ResolvePathIdempotent`, `Paths.EmptyPathNotIdempotent`);
  - the suffix is reproduced when `/v1` is put back in front of it
    (`Paths.TargetSuffixIdempotent`);
  - re-resolving a bare suffix can change it: `/v1/v1/x` gives the suffix `/v1/x`,
    and that gives `/x`.
- A leading `//` is kept (`//x` stays `//x`). Only a missing leading slash is added.

## Model

| member | source | states |
|---|---|---|
| `Paths.ResolvePath` | src/index.ts:38-43 | The rewritten path always starts with `/v1/`, whatever the input. |
| `Paths.StripV1` | src/index.ts:46 | The anchored `^\/v1` replace removes exactly one leading `/v1` when there is one, so putting `/v1` back gives the input. Otherwise the string is unchanged. |
| `Paths.TargetSuffix` | src/index.ts:38-46 | The suffix after the base is the resolved path less exactly one `/v1`. It is non-empty and begins with `/`. |
| `Paths.TargetUrl` | src/index.ts:46 | The target URL is the base `https://api.xai.com/v1`, then the suffix, then the search string. It always starts with the base followed by `/`. |
| `Paths.DefaultPathTarget` | src/index.ts:38-39 | `/`, `/v1` and `/v1/` go to `https://api.xai.com/v1/chat/completions` plus the search string. |
| `Paths.V1PathTarget` | src/index.ts:40 | A path under `/v1/` is kept, and its suffix is the path without its first three characters (`/v1/models` gives `/models`). |
| `Paths.AbsolutePathTarget` | src/index.ts:40-42 | Any other path starting with `/` is its own suffix, because the `/v1` prepended to it is stripped again (`/v1abc` gives `/v1abc`). |
| `Paths.RelativePathTarget` | src/index.ts:42 | A path without a leading slash gets one. The empty path gives `/`. |
| `Paths.TargetSuffixIsExpected` | src/index.ts:38-46 | The two-step rewrite (prepend `/v1`, strip `/v1`) equals a closed-form reference on every pathname: the chat endpoint, or the path less `/v1`, or the path with a leading slash ensured. |
| `Paths.SearchAppended` | src/index.ts:46 | The search string comes last and is unchanged: the URL with a search string is the URL without it, followed by the search string. |
| `Paths.ResolvePathIdempotent` | src/index.ts:38-43 | Resolving a resolved path gives the same path, for every non-empty pathname. |
| `Paths.EmptyPathNotIdempotent` | src/index.ts:38-43 | The empty pathname resolves to `/v1/`, which resolves again to the default path. It is the one exception to idempotence. |
| `Paths.TargetSuffixIdempotent` | src/index.ts:38-46 | For an absolute pathname, resolving `/v1` followed by its suffix gives the same suffix again. |
| `Paths.ChatCompletionsTarget` | src/index.ts:46 | `/chat/completions` with search `?x=1` targets `https://api.xai.com/v1/chat/completions?x=1`. |
| `Cors.RequestOrigin` | src/index.ts:111 | The origin is the request's `Origin` header when present, and `""` otherwise. |
| `Cors.AllowOrigin` | src/index.ts:114-116 | A permitted origin (the list holds `*` or the origin) is echoed. Otherwise the value is the first list entry, or `""` for an empty list. The value is never anything other than a permitted origin, a list entry, or `""` for an empty list. |
| `Cors.EchoesOnlyPermitted` | src/index.ts:114-116 | Both directions: the origin is echoed if and only if the list permits it. The single exception is an empty origin against an empty list, where the fallback `""` coincides with it. |
| `Cors.GetCorsHeaders` | src/index.ts:110-124 | Exactly the four CORS header names. Allow-Origin is as `AllowOrigin` decides. Methods, headers and max-age hold their fixed constants. |
| `Cors.CorsHeadersFixedButOrigin` | src/index.ts:118-123 | Any two requests get identical CORS headers apart from `Access-Control-Allow-Origin`. |
| `Cors.ShippedListEchoesOrigin` | src/index.ts:111-116 | With the shipped list `["*"]`, Allow-Origin always echoes the request's origin, or `""` when it is absent. |
| `Cors.SetEach` | src/index.ts:102-104 | Applies the `set` calls one after another. Afterwards every listed name holds its new value, and every other header is present exactly when it was before, with the same value. |
| `Cors.SetEachIsMerge` | src/index.ts:102-104 | Setting each header of a list in turn equals merging those headers over the existing map. The named headers take the new values and all others are kept. |
| `Cors.AddCorsHeaders` | src/index.ts:100-105 | The header set afterwards is the old one with the four CORS headers merged over it. Each CORS name holds the policy's value, overwriting any earlier one. Every other header is present exactly when it was before, with the same value. |
| `Cors.HandleCors` | src/index.ts:89-95 | A preflight answer has status 204, the default empty status text, a null body, and exactly the CORS headers. |
| `Proxy.Forwarded` | src/index.ts:55-60 | The upstream request goes to the resolved target URL. It carries the inbound method, headers and body unchanged, and follows redirects. |
| `Proxy.ErrorResponse` | src/index.ts:75-81 | The failure response has status 500, the default empty status text, and body `{"error":"Failed to proxy request"}`. Its headers are `Content-Type: application/json` plus exactly the CORS headers. |
| `Proxy.Relay` | src/index.ts:62-81 | Builds the reply from the upstream outcome. A failure gives exactly `ErrorResponse`. A reached upstream's status, status text and body pass through. Its headers are kept, except that the four CORS names take the policy's values. `SuccessPassesThrough` and `FailureGivesError` state this of the whole handler. |
| `Proxy.Handle` | src/index.ts:27-81 | The dispatch. `OPTIONS` gets 204, a null body and exactly the CORS headers. Any other request gets `Relay` of the outcome of its one forwarded request. `PreflightNeverForwarded`, `OtherRequestsForwardedOnce`, `SuccessPassesThrough` and `FailureGivesError` characterize it. |
| `Proxy.Fetch` | src/index.ts:25-83 | The imperative handler, with its in-place header merge, returns exactly the response the dispatch function `Handle` specifies. |
| `Proxy.PreflightNeverForwarded` | src/index.ts:27-29 | An `OPTIONS` request gets 204 with a null body and only the CORS headers. Its response is the same for every upstream, so the upstream is never consulted. |
| `Proxy.OtherRequestsForwardedOnce` | src/index.ts:31-60 | Any other request depends on the upstream only through the outcome of the one forwarded request. |
| `Proxy.SuccessPassesThrough` | src/index.ts:62-71 | A reached upstream's status, status text and body are passed through unchanged. Its non-CORS headers are kept exactly, and the four CORS headers hold the policy's values. |
| `Proxy.FailureGivesError` | src/index.ts:72-81 | A failed upstream call gives status 500, the fixed JSON error body, `Content-Type: application/json` and all four CORS headers. |
| `Proxy.ChatCompletionScenario` | src/index.ts:25-83 | `POST /chat/completions?x=1` is forwarded to `https://api.xai.com/v1/chat/completions?x=1` with the same method, headers and body, and with redirects followed. An upstream 200 reaches the caller with its status and body. All four CORS headers are present, and the empty origin is echoed. |
| `Http.Headers.constructor` | src/index.ts:63 | `new Headers(init)` is a copy holding exactly the given header map. |
| `Http.Headers.Set` | src/index.ts:103 | `headers.set(name, value)` adds or overwrites `name`, and leaves every other header unchanged. |

## Left out

- `deploy.ts` is not part of this model. It is deployment glue made of:
  - argument parsing through a foreign library;
  - file reads and writes, with pattern-based rewrites of a configuration file;
  - running an external deployment command;
  - console output.
- The network call itself is a parameter. It stands for the upstream `fetch` with
  redirect following, and yields either `Reached` or `Failed`. Streaming of
  request and response bodies is reduced to passing an opaque body value along.
- URL parsing is left out. The pathname and search string are inputs. The
  request method is taken as the runtime delivers it: `"OPTIONS"` is compared
  exactly.
- Header sets are maps keyed by canonical names. The runtime's case-insensitive
  header names and multi-valued headers are not modelled.
- The runtime `Response` constructor can itself throw, for example for a status
  outside 200-599. In the code that exception would be caught and turned into the
  500 response. Here every upstream status is passed through.
- The error log line and the unused environment and execution-context parameters
  have no observable effect on the response and are left out.
