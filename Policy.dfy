/** The worker's configuration and its pure decisions: which requests it
    intercepts, which responses it keeps, what it answers when the network is
    gone, and which cache namespaces are stale. */
module Policy {
  import opened Fetch

  /** The one cache namespace of this version of the worker. */
  const CACHE_NAME: string := "ai-tools-hub-v1"

  /** The install manifest, in order. */
  const STATIC_CACHE_URLS: seq<string> := [
    "/",
    "/index.html",
    "/css/style.css",
    "/js/script.js",
    "/manifest.json",
    "https://fonts.googleapis.com/css2?family=Inter:wght@300;400;500;600;700;800&family=Space+Grotesk:wght@300;400;500;600;700&display=swap",
    "https://cdnjs.cloudflare.com/ajax/libs/font-awesome/6.0.0/css/all.min.css"
  ]

  /** `STATIC_CACHE_URLS.slice(0, 4)`: the app shell, cached all or nothing. */
  const REQUIRED: seq<string> := STATIC_CACHE_URLS[..4]

  /** `STATIC_CACHE_URLS.slice(4)`: cached one by one, failures tolerated. */
  const BEST_EFFORT: seq<string> := STATIC_CACHE_URLS[4..]

  /** The two tiers split the manifest: four required entries, then the
      remaining three best-effort ones; the required ones are root-relative paths. */
  lemma ManifestTiers()
    ensures |REQUIRED| == 4 && |BEST_EFFORT| == 3
    ensures REQUIRED + BEST_EFFORT == STATIC_CACHE_URLS
    ensures forall u :: u in REQUIRED ==> HasPrefix(u, "/")
  {
    assert REQUIRED == ["/", "/index.html", "/css/style.css", "/js/script.js"];
  }

  /** The two guards of the fetch listener: only GET requests whose URL
      starts with "http" are handled by the worker. */
  predicate Intercepts(req: Request) {
    req.httpMethod == "GET" && HasPrefix(req.url, "http")
  }

  /** A network answer worth keeping: present, status 200, type "basic". */
  predicate Cacheable(response: Option<Response>) {
    response.Some? && response.value.status == 200 && response.value.rtype == Basic
  }

  /** The placeholder built by `new Response('Offline', {status: 408, ...})`. */
  function OfflineResponse(): Response {
    Response(408, Default, "Request Timeout", "Offline")
  }

  /** How the fetch listener answers one request. */
  datatype Reply =
    | PassThrough                              // `respondWith` is never called
    | Cached(hit: Response)                    // served from the cache storage
    | Network(response: Option<Response>)      // what the network resolved with
    | Fallback(response: Option<Response>)     // the network rejected

  /** The request decision, given the cache lookup for the request, the
      network's outcome and the lookup for the offline page. Each is only
      consulted on the branch that needs it. */
  function Respond(req: Request, cached: Option<Response>, net: NetOutcome, index: Option<Response>): Reply {
    if !Intercepts(req) then PassThrough
    else if cached.Some? then Cached(cached.value)
    else match net
      case Ok(response) => Network(response)
      case Fail => Fallback(if req.mode == Navigate then index else Some(OfflineResponse()))
  }

  /** Whether the reply is written back to `CACHE_NAME`. */
  predicate StoresBack(reply: Reply) {
    reply.Network? && Cacheable(reply.response)
  }

  /** `cacheNames.filter(name => name !== CACHE_NAME)`, keeping their order
      (`Worker.StaleIsWithoutCurrent`). */
  function Stale(names: seq<string>): (r: seq<string>)
    ensures forall n :: n in r <==> n in names && n != CACHE_NAME
  {
    if names == [] then []
    else if names[0] == CACHE_NAME then Stale(names[1..])
    else [names[0]] + Stale(names[1..])
  }
}
