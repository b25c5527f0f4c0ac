# Static-site worker request handler, in Dafny

This project models `handleRequest`, the request handler of a Cloudflare
Worker that serves a static blog from the platform's asset store. The
handler does two things:

- It rewrites the URL pathname. A directory path gets `index.html`
  appended. A path with no `.` anywhere gets `.html` appended. Any other
  path is fetched as named.
- It chooses the response. An asset served with status 200 is passed
  through unchanged. For any other status, the handler fetches
  `/404.html` on the same host and returns that page's headers and body
  with the status forced to 404. A failure thrown by either fetch becomes
  a fixed `500` response with `Content-Type: text/plain` and the body
  `Internal Server Error`.
- Both fetches build their request with `new Request(url, request)`. Under
  the Fetch standard the first construction takes over the incoming
  request's body, so for a request with a body the second construction
  throws. Such a request never gets the not-found page: any non-200 asset
  status ends in the 500 response, after one fetch.

Module `PathRewrite` (`paths.dfy`) holds the rewrite. `Rewrite` is the
specification function. `RewritePath` performs the handler's own two
in-place appends on a local variable and is proved equal to it. The
JavaScript `endsWith` and `includes` are modelled as a suffix test and a
substring search. `Rewrite` itself carries no contract; the rows from
`RewritePath` to `RewriteSamples` state what it does.

Module `Resolver` (`resolver.dfy`) holds the response choice. The asset
store's `fetch` is an oracle: a function from the outgoing request (URL,
plus the incoming request's method, headers and body) to either a
response or a thrown failure. `HandleRequest` is a function of the
incoming request and that oracle. It returns the response together with
the requests it sent, in order, so that the laws about which fetches
happen can be stated and proved. The incoming request's body is an
`Option`, so that a request without one (a GET or HEAD) is told apart.
`AssetRequest` and `NotFoundRequest` build the two outgoing requests;
`FirstFetchTarget` and `SecondFetchTarget` state what they hold.

## Model

| member | source | states |
|---|---|---|
| `PathRewrite.RewritePath` | _worker.js:11-22 | the handler's two sequential appends compute `Rewrite`; the result holds a `.`, does not end in `/`, and has the original path as a prefix |
| `PathRewrite.IncludesChar` | _worker.js:20 | `includes` with a one-character argument holds exactly when that character occurs in the string |
| `PathRewrite.EndsWithChar` | _worker.js:15 | `endsWith("/")` holds exactly when the last character is `/` |
| `PathRewrite.RewriteDirectory` | _worker.js:15-22 | a path ending in `/` becomes exactly `path + "index.html"`; `.html` is never appended to it, alone or after `index.html` |
| `PathRewrite.RewriteExtensionless` | _worker.js:20-22 | a path that does not end in `/` and holds no `.` becomes exactly `path + ".html"` |
| `PathRewrite.RewriteDotted` | _worker.js:15-22 | a path that does not end in `/` and holds a `.` is left unchanged |
| `PathRewrite.RewriteUnchangedIff` | _worker.js:15-22 | the rewrite leaves a path unchanged if and only if it does not end in `/` and holds a `.` |
| `PathRewrite.RewriteShape` | _worker.js:15-22 | every rewritten path holds a `.`, does not end in `/`, and extends the original path |
| `PathRewrite.RewriteIdempotent` | _worker.js:15-22 | rewriting a rewritten path changes nothing |
| `PathRewrite.RewriteSuffix` | _worker.js:15-22 | the rewrite appends nothing, `index.html` or `.html`, and nothing else |
| `PathRewrite.RewriteSamples` | _worker.js:14-22 | `/blog/`, `/about`, `/img/logo.png`, `/a.b/` and `/v1.2/about` rewrite to `/blog/index.html`, `/about.html`, themselves, `/a.b/index.html` and themselves |
| `Resolver.HandleRequest` | _worker.js:24-47 | every call sends one or two fetches, the first for the rewritten asset and the second only for `/404.html`, and answers with status 200, 404 or 500 |
| `Resolver.FirstFetchTarget` | _worker.js:26 | the first fetch targets exactly `"https://" + host + Rewrite(pathname)` and carries the incoming method, headers and body |
| `Resolver.PassThrough` | _worker.js:29-31 | an asset fetched with status 200 is returned unchanged and no second fetch is made |
| `Resolver.SecondFetchTarget` | _worker.js:34 | a second fetch targets exactly `"https://" + host + "/404.html"`, carries the incoming method and headers, and is made only for a request without a body |
| `Resolver.NotFoundFallback` | _worker.js:34-38 | for a request without a body, any other status leads to a fetch of `"https://" + host + "/404.html"` and a 404 answer with that page's headers and body, whatever status the page came with |
| `Resolver.FallbackWithBodyFails` | _worker.js:26-46 | for a request with a body, any other status ends in the fixed 500 response after the one fetch, because the second `new Request` from the already consumed request throws |
| `Resolver.SecondFetchIff` | _worker.js:29-34 | the second fetch is made if and only if the first fetch produced a response whose status is not 200 and the request has no body |
| `Resolver.InternalErrorIff` | _worker.js:24-46 | the answer is the fixed 500 plain-text response if and only if one of the fetches made threw, or a request with a body needed the not-found page |
| `Resolver.NotFoundIff` | _worker.js:29-38 | the answer has status 404 if and only if the asset came back with a status other than 200, the request has no body, and the not-found page was fetched without a failure |
| `Resolver.DependsOnlyOnFetched` | _worker.js:24-47 | two asset stores that answer the requests the handler sent in the same way lead to the same answer and the same fetches |

## Left out

- The `addEventListener('fetch', …)` registration and `event.respondWith` (_worker.js:4-6): platform event plumbing with no logic of its own.
- Parsing `request.url` with `new URL` (_worker.js:10): the model takes the host and pathname as given strings. A parse failure happens outside the `try`, so the 500 law does not cover it.
- The asset store, network transport and body streams: `fetch` is an oracle, headers are a map and bodies a string, both passed through uninspected.
- The oracle is deterministic: a store that answered the same request differently on a second call is not modelled. This matters only when the rewritten path is itself `/404.html`.
- Resolver.InternalErrorIff: of the failures the `Request` and `Response` constructors can throw inside the `try`, only the reuse of a consumed body is modelled. Any other such failure (an invalid URL, say) would also become the 500 response; those constructors are platform code.
- Other request-init fields copied by `new Request(url, request)` (redirect mode, signal and the like): only method, headers and body are modelled.
- `async`/`await`: the two fetches are sequential calls; there is no concurrency within one request.
- A second variant of the handler that forwards the request unchanged and retries `/index.html` on a 404 is not part of this model; its source file is not among the files modelled.
