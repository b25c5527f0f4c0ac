/** The worker's request handler: rewrite the pathname, fetch that asset
    from the static asset store, fall back to the site's `404.html` page
    when the asset is not served with status 200, and turn any failure
    of a fetch into a fixed plain-text 500 response.

    Both fetches build their request with `new Request(url, request)`, so
    the incoming request is the init of both. Under the Fetch standard the
    first construction takes over the incoming body, and the second one
    then throws; a request with a body that needs the not-found page
    therefore ends in the 500 response without a second fetch.

    The asset store is an oracle: a function from the outgoing request to
    either the response it produced or a thrown failure. The handler is
    then a function of the request and the oracle, and it also reports the
    requests it sent, in order, so that the fetch laws can be stated. */
module Resolver {
  import opened PathRewrite

  /** Response headers, passed through as the store produced them. */
  type Headers = map<string, string>

  /** A response or request body, passed through uninspected. */
  type Body = string

  datatype Option<T> = None | Some(value: T)

  datatype Response = Response(status: int, headers: Headers, body: Body)

  /** The parts of the incoming request the handler reads: the host and
      pathname of its URL, and what a derived request copies from it
      (its method, here `verb`, its headers, and its body if it has one). */
  datatype Request = Request(verb: string, host: string, pathname: string, headers: Headers, body: Option<Body>)

  /** A request sent to the asset store: a target URL with the incoming
      request's method, headers and body. */
  datatype Outgoing = Outgoing(url: string, verb: string, headers: Headers, body: Option<Body>)

  /** What one call of the asset store's `fetch` gives back. */
  datatype FetchOutcome = Fetched(response: Response) | Threw

  /** The handler's answer and the requests it sent to the store, in order. */
  datatype Handled = Handled(response: Response, fetches: seq<Outgoing>)

  /** The path of the site's not-found page. */
  const NotFoundPath: string := "/404.html"

  /** The response every caught failure becomes. */
  const InternalError: Response :=
    Response(500, map["Content-Type" := "text/plain"], "Internal Server Error")

  /** The URL of `path` on the incoming request's host. */
  function AssetUrl(host: string, path: string): (url: string) {
    "https://" + host + path
  }

  /** `new Request(url, request)`: a request for `url` that carries the
      incoming request's method, headers and body. */
  function Derive(request: Request, url: string): (out: Outgoing) {
    Outgoing(url, request.verb, request.headers, request.body)
  }

  /** The first request the handler sends: the rewritten asset. */
  function AssetRequest(request: Request): (out: Outgoing) {
    Derive(request, AssetUrl(request.host, Rewrite(request.pathname)))
  }

  /** The second request the handler may send: the not-found page. */
  function NotFoundRequest(request: Request): (out: Outgoing) {
    Derive(request, AssetUrl(request.host, NotFoundPath))
  }

  /** The handler. One response per call, after one or two fetches; the
      response is the asset, the not-found page with status 404, or the
      fixed 500 response. Only a request without a body reaches the
      second fetch. */
  function HandleRequest(request: Request, fetch: Outgoing -> FetchOutcome): (h: Handled)
    ensures 1 <= |h.fetches| <= 2
    ensures h.fetches[0] == AssetRequest(request)
    ensures |h.fetches| == 2 ==> h.fetches[1] == NotFoundRequest(request) && request.body == None
    ensures h.response.status in {200, 404, 500}
  {
    var asset := AssetRequest(request);
    match fetch(asset)
    case Threw => Handled(InternalError, [asset])
    case Fetched(found) =>
      if found.status == 200 then
        Handled(found, [asset])
      else if request.body.Some? then
        // the first `new Request` took over the body, so the second one throws
        Handled(InternalError, [asset])
      else
        var notFound := NotFoundRequest(request);
        match fetch(notFound)
        case Threw => Handled(InternalError, [asset, notFound])
        case Fetched(page) => Handled(Response(404, page.headers, page.body), [asset, notFound])
  }

  /** The first fetch targets `https://` + host + the rewritten path and
      carries the incoming request's method, headers and body. */
  lemma FirstFetchTarget(request: Request, fetch: Outgoing -> FetchOutcome)
    ensures HandleRequest(request, fetch).fetches[0].url == "https://" + request.host + Rewrite(request.pathname)
    ensures HandleRequest(request, fetch).fetches[0].verb == request.verb
    ensures HandleRequest(request, fetch).fetches[0].headers == request.headers
    ensures HandleRequest(request, fetch).fetches[0].body == request.body
  {
  }

  /** An asset served with status 200 is returned unchanged and nothing
      else is fetched. */
  lemma PassThrough(request: Request, fetch: Outgoing -> FetchOutcome, found: Response)
    requires fetch(AssetRequest(request)) == Fetched(found) && found.status == 200
    ensures HandleRequest(request, fetch) == Handled(found, [AssetRequest(request)])
  {
  }

  /** For a request without a body, any other status fetches `/404.html`
      on the same host and answers with its headers and body under status
      404, whatever status that page itself came with. */
  lemma NotFoundFallback(request: Request, fetch: Outgoing -> FetchOutcome, found: Response, page: Response)
    requires request.body == None
    requires fetch(AssetRequest(request)) == Fetched(found) && found.status != 200
    requires fetch(NotFoundRequest(request)) == Fetched(page)
    ensures HandleRequest(request, fetch).response == Response(404, page.headers, page.body)
    ensures HandleRequest(request, fetch).fetches == [AssetRequest(request), NotFoundRequest(request)]
    ensures NotFoundRequest(request).url == "https://" + request.host + "/404.html"
  {
  }

  /** For a request with a body, any other status ends in the 500
      response and the not-found page is never fetched: building its
      request from the incoming one, whose body the first fetch took
      over, throws. */
  lemma FallbackWithBodyFails(request: Request, fetch: Outgoing -> FetchOutcome, found: Response)
    requires request.body.Some?
    requires fetch(AssetRequest(request)) == Fetched(found) && found.status != 200
    ensures HandleRequest(request, fetch) == Handled(InternalError, [AssetRequest(request)])
  {
  }

  /** The second fetch targets `https://` + host + `/404.html` and carries
      the incoming request's method and headers, and no body. */
  lemma SecondFetchTarget(request: Request, fetch: Outgoing -> FetchOutcome)
    requires |HandleRequest(request, fetch).fetches| == 2
    ensures HandleRequest(request, fetch).fetches[1].url == "https://" + request.host + "/404.html"
    ensures HandleRequest(request, fetch).fetches[1].verb == request.verb
    ensures HandleRequest(request, fetch).fetches[1].headers == request.headers
    ensures HandleRequest(request, fetch).fetches[1].body == request.body == None
  {
  }

  /** The second fetch is made exactly when the first one produced a
      response whose status is not 200 and the request has no body. */
  lemma SecondFetchIff(request: Request, fetch: Outgoing -> FetchOutcome)
    ensures |HandleRequest(request, fetch).fetches| == 2
        <==> fetch(AssetRequest(request)).Fetched? && fetch(AssetRequest(request)).response.status != 200
             && request.body == None
  {
  }

  /** The answer is the fixed 500 response exactly when one of the fetches
      made threw, or when a request with a body needed the not-found page. */
  lemma InternalErrorIff(request: Request, fetch: Outgoing -> FetchOutcome)
    ensures var h := HandleRequest(request, fetch);
      (h.response == InternalError) <==>
        (|| (exists i :: 0 <= i < |h.fetches| && fetch(h.fetches[i]).Threw?)
         || (fetch(AssetRequest(request)).Fetched? && fetch(AssetRequest(request)).response.status != 200
             && request.body.Some?))
  {
  }

  /** A status-404 answer comes from the not-found page: the asset was not
      served with status 200, the request has no body, and the page was
      fetched without a failure. */
  lemma NotFoundIff(request: Request, fetch: Outgoing -> FetchOutcome)
    ensures HandleRequest(request, fetch).response.status == 404
        <==> fetch(AssetRequest(request)).Fetched? && fetch(AssetRequest(request)).response.status != 200
             && request.body == None && fetch(NotFoundRequest(request)).Fetched?
  {
  }

  /** The answer depends on the store only through the requests the
      handler sent: two stores that agree on those give the same answer. */
  lemma DependsOnlyOnFetched(request: Request, fetch1: Outgoing -> FetchOutcome, fetch2: Outgoing -> FetchOutcome)
    requires forall o :: o in HandleRequest(request, fetch1).fetches ==> fetch1(o) == fetch2(o)
    ensures HandleRequest(request, fetch1) == HandleRequest(request, fetch2)
  {
  }
}
