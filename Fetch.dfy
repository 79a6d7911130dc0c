/** Values exchanged between the page, the worker, the cache storage and the
    network: requests, responses, what a network fetch settles with, and the
    identity under which the cache storage files a response. */
module Fetch {

  datatype Option<+T> = None | Some(value: T)

  /** `Request.mode`; the worker only distinguishes `Navigate`. */
  datatype RequestMode = Navigate | SameOrigin | NoCors | Cors

  /** A request as the fetch event hands it over: its URL is absolute. */
  datatype Request = Request(httpMethod: string, url: string, mode: RequestMode)

  /** `Response.type`: "basic", "cors", "default", "error", "opaque",
      "opaqueredirect". */
  datatype ResponseType = Basic | CrossOrigin | Default | NetworkError | Opaque | OpaqueRedirect

  /** A response snapshot; headers are not modelled. */
  datatype Response = Response(status: int, rtype: ResponseType, statusText: string, body: string)

  /** What `fetch(request)` settles with: it resolves with a value, or it
      rejects. The resolved value is normally a `Response`; `None` stands for
      a falsy value, which the worker tests for before caching. */
  datatype NetOutcome = Ok(response: Option<Response>) | Fail

  /** The identity of a GET request in the cache storage: its absolute URL. */
  datatype Key = Key(url: string)

  function KeyOf(req: Request): Key {
    Key(req.url)
  }

  /** `s.startsWith(p)`. */
  predicate HasPrefix(s: string, p: string) {
    |p| <= |s| && s[..|p|] == p
  }

  /** The prefix test means exactly that `s` is `p` followed by something. */
  lemma HasPrefixIsConcatenation(s: string, p: string)
    ensures HasPrefix(s, p) <==> exists t :: s == p + t
  {
    if HasPrefix(s, p) {
      assert s == p + s[|p|..];
    }
  }

  /** A prefix of `a` is a prefix of every extension of `a`. */
  lemma HasPrefixExtends(a: string, b: string, p: string)
    requires HasPrefix(a, p)
    ensures HasPrefix(a + b, p)
  {
    assert (a + b)[..|p|] == a[..|p|];
  }

  /** How the host resolves a URL given to `cache.add`, `cache.addAll` or
      `caches.match` against the worker's origin: a path beginning with "/"
      is taken relative to the origin, anything else as an absolute URL. */
  function Resolve(origin: string, url: string): Key {
    if HasPrefix(url, "/") then Key(origin + url) else Key(url)
  }

  /** A root-relative path resolved against an http(s) origin, or an absolute
      http(s) URL, gives a key the worker's scheme test accepts. */
  lemma ResolveKeepsScheme(origin: string, url: string)
    requires HasPrefix(origin, "http")
    requires HasPrefix(url, "/") || HasPrefix(url, "http")
    ensures HasPrefix(Resolve(origin, url).url, "http")
  {
    if HasPrefix(url, "/") {
      HasPrefixExtends(origin, url, "http");
    }
  }
}
