/** The worker's three listeners over the shared cache storage: install
    fills the current namespace from the manifest, activate deletes every
    other namespace, and fetch answers requests cache-first. */
module Worker {
  import opened Fetch
  import opened Policy
  import opened Storage

  /** The keys under which `cache.addAll` and `cache.add` file `urls`. */
  function ManifestKeys(origin: string, urls: seq<string>): seq<Key> {
    seq(|urls|, i requires 0 <= i < |urls| => Resolve(origin, urls[i]))
  }

  /** The key of `caches.match('/index.html')`. */
  function IndexKey(origin: string): Key {
    Resolve(origin, "/index.html")
  }

  /** The entries `CACHE_NAME` held before, none if it did not exist. */
  function Prior(c: Caches): Entries {
    if CACHE_NAME in c.store then c.store[CACHE_NAME] else map[]
  }

  // ---------------------------------------------------------------------
  // The listeners as functions of the cache storage

  /** The storage after the install listener: `CACHE_NAME` is opened; if
      every required entry fetches, they are all added, then each
      best-effort entry that fetches is added too. */
  function Installed(c: Caches, origin: string, net: Key -> NetOutcome): Caches {
    var ready := Opened(c, CACHE_NAME);
    if AllFetched(ManifestKeys(origin, REQUIRED), net) then
      Filled(Filled(ready, CACHE_NAME, ManifestKeys(origin, REQUIRED), net),
             CACHE_NAME, ManifestKeys(origin, BEST_EFFORT), net)
    else ready
  }

  /** The storage after the activate listener: every stale namespace deleted. */
  function Activated(c: Caches): Caches {
    DeletedAll(c, Stale(c.order))
  }

  /** The fetch listener's reply, given the storage it reads. */
  function Handle(c: Caches, origin: string, req: Request, net: NetOutcome): Reply {
    Respond(req, Lookup(c, KeyOf(req)), net, Lookup(c, IndexKey(origin)))
  }

  /** The storage after the fetch listener replied `reply` to `req`. */
  function AfterFetch(c: Caches, req: Request, reply: Reply): Caches {
    if StoresBack(reply) then Stored(Opened(c, CACHE_NAME), CACHE_NAME, KeyOf(req), reply.response.value)
    else c
  }

  // ---------------------------------------------------------------------
  // The worker

  class ServiceWorker {
    const caches: CacheStorage
    /** The origin the worker is served from, e.g. "https://example.org". */
    const origin: string
    /** `self.skipWaiting()` has been called. */
    var waitingSkipped: bool
    /** `self.clients.claim()` has been called. */
    var clientsClaimed: bool

    ghost predicate Valid()
      reads this, caches
    {
      caches.Valid()
    }

    constructor (caches: CacheStorage, origin: string)
      requires caches.Valid()
      ensures Valid() && this.caches == caches && this.origin == origin
      ensures !waitingSkipped && !clientsClaimed
    {
      this.caches := caches;
      this.origin := origin;
      waitingSkipped := false;
      clientsClaimed := false;
    }

    /** The install listener. `installed` is whether the chain resolves;
        only then is `skipWaiting` reached. */
    method Install(net: Key -> NetOutcome) returns (installed: bool)
      requires Valid()
      modifies this, caches
      ensures Valid()
      ensures installed == AllFetched(ManifestKeys(origin, REQUIRED), net)
      ensures caches.Value() == Installed(old(caches.Value()), origin, net)
      ensures waitingSkipped == (old(waitingSkipped) || installed)
      ensures clientsClaimed == old(clientsClaimed)
    {
      ghost var before := caches.Value();
      caches.Open(CACHE_NAME);
      installed := caches.AddAll(CACHE_NAME, ManifestKeys(origin, REQUIRED), net);
      if installed {
        CacheEach(ManifestKeys(origin, BEST_EFFORT), net);
        waitingSkipped := true;
      }
    }

    /** The best-effort tier of install: each entry is added on its own, and
        one that does not fetch is skipped without failing the others. */
    method CacheEach(optional: seq<Key>, net: Key -> NetOutcome)
      requires Valid() && CACHE_NAME in caches.store
      modifies caches
      ensures Valid()
      ensures caches.Value() == Filled(old(caches.Value()), CACHE_NAME, optional, net)
    {
      ghost var entries := caches.store[CACHE_NAME];
      for i := 0 to |optional|
        invariant caches.Valid() && caches.order == old(caches.order)
        invariant caches.store == old(caches.store)[CACHE_NAME := AddEntries(entries, optional[..i], net)]
      {
        AddEntriesThenOne(entries, optional[..i], optional[i], net);
        assert optional[..i + 1] == optional[..i] + [optional[i]];
        var added := caches.Add(CACHE_NAME, optional[i], net);
      }
      assert optional[..|optional|] == optional;
    }

    /** The activate listener. */
    method Activate()
      requires Valid()
      modifies this, caches
      ensures Valid()
      ensures caches.Value() == Activated(old(caches.Value()))
      ensures clientsClaimed && waitingSkipped == old(waitingSkipped)
    {
      var names := caches.Keys();
      var stale := Stale(names);
      DeletedNone(caches.Value());
      for i := 0 to |stale|
        modifies caches
        invariant caches.Valid()
        invariant caches.Value() == DeletedAll(old(caches.Value()), stale[..i])
      {
        DeleteStep(old(caches.Value()), stale[..i], stale[i]);
        assert stale[..i + 1] == stale[..i] + [stale[i]];
        var existed := caches.Delete(stale[i]);
      }
      assert stale[..|stale|] == stale;
      clientsClaimed := true;
    }

    /** The fetch listener. */
    method HandleFetch(req: Request, net: NetOutcome) returns (reply: Reply)
      requires Valid()
      modifies caches
      ensures Valid()
      ensures reply == Handle(old(caches.Value()), origin, req, net)
      ensures caches.Value() == AfterFetch(old(caches.Value()), req, reply)
    {
      if req.httpMethod != "GET" {
        return PassThrough;
      }
      if !HasPrefix(req.url, "http") {
        return PassThrough;
      }
      var cached := caches.Match(KeyOf(req));
      if cached.Some? {
        return Cached(cached.value);
      }
      match net {
        case Ok(response) =>
          if response.None? || response.value.status != 200 || response.value.rtype != Basic {
            return Network(response);
          }
          caches.Open(CACHE_NAME);
          caches.Put(CACHE_NAME, KeyOf(req), response.value);
          reply := Network(response);
        case Fail =>
          if req.mode == Navigate {
            var index := caches.Match(IndexKey(origin));
            reply := Fallback(index);
          } else {
            reply := Fallback(Some(OfflineResponse()));
          }
      }
    }
  }

  // ---------------------------------------------------------------------
  // Properties of the fetch listener

  /** A request that is not a GET, or whose URL does not start with "http",
      is left to the browser: no reply is substituted and nothing is stored. */
  lemma NotInterceptedIsUntouched(c: Caches, origin: string, req: Request, net: NetOutcome)
    requires req.httpMethod != "GET" || !HasPrefix(req.url, "http")
    ensures Handle(c, origin, req, net) == PassThrough
    ensures AfterFetch(c, req, Handle(c, origin, req, net)) == c
  {
  }

  /** On a hit the cached response is returned as it is, whatever the
      network would have answered, and the storage is left alone. */
  lemma HitIsServedAsCached(c: Caches, origin: string, req: Request, net: NetOutcome, r: Response)
    requires Intercepts(req) && Lookup(c, KeyOf(req)) == Some(r)
    ensures Handle(c, origin, req, net) == Cached(r)
    ensures AfterFetch(c, req, Cached(r)) == c
  {
  }

  /** On a miss answered with status 200 and type "basic", the caller gets
      that response, `CACHE_NAME` (opened if need be) now maps the request to
      it, no other namespace changes, and the same request is then a hit
      served without the network. */
  lemma CacheableMissIsKept(c: Caches, origin: string, req: Request, r: Response, later: NetOutcome)
    requires c.Wf() && Intercepts(req) && Lookup(c, KeyOf(req)).None?
    requires r.status == 200 && r.rtype == Basic
    ensures Handle(c, origin, req, Ok(Some(r))) == Network(Some(r))
    ensures var after := AfterFetch(c, req, Network(Some(r)));
      && after.Wf()
      && CACHE_NAME in after.store && after.store[CACHE_NAME] == Prior(c)[KeyOf(req) := r]
      && (forall n :: n in c.store ==> n in after.store)
      && (forall n :: n in after.store && n != CACHE_NAME ==> n in c.store && after.store[n] == c.store[n])
      && Handle(after, origin, req, later) == Cached(r)
  {
    var after := AfterFetch(c, req, Network(Some(r)));
    forall n | n in after.order && n != CACHE_NAME
      ensures !Holds(after.store, n, KeyOf(req))
    {
      assert n in c.order;
    }
    FirstMatchOfOnlyHolder(after.order, after.store, KeyOf(req), CACHE_NAME);
  }

  /** On a miss answered without a response, with a status other than 200,
      or with a type other than "basic", that answer is returned and the
      storage is left exactly as it was, so the request still misses. */
  lemma UncacheableMissIsNotKept(c: Caches, origin: string, req: Request, resp: Option<Response>)
    requires Intercepts(req) && Lookup(c, KeyOf(req)).None?
    requires resp.None? || resp.value.status != 200 || resp.value.rtype != Basic
    ensures Handle(c, origin, req, Ok(resp)) == Network(resp)
    ensures AfterFetch(c, req, Network(resp)) == c
  {
  }

  /** On a miss the network rejects, a navigation gets whatever the lookup
      of "/index.html" gives, possibly nothing, and any other request gets a
      408 "Request Timeout" response with body "Offline"; nothing is stored. */
  lemma NetworkFailureFallsBack(c: Caches, origin: string, req: Request)
    requires Intercepts(req) && Lookup(c, KeyOf(req)).None?
    ensures var reply := Handle(c, origin, req, Fail);
      && reply.Fallback?
      && AfterFetch(c, req, reply) == c
      && (req.mode == Navigate ==> reply.response == Lookup(c, Resolve(origin, "/index.html")))
      && (req.mode != Navigate ==> reply.response.Some?
                                   && reply.response.value.status == 408
                                   && reply.response.value.statusText == "Request Timeout"
                                   && reply.response.value.body == "Offline")
  {
  }

  // ---------------------------------------------------------------------
  // Properties of the activate listener

  /** After activation at most `CACHE_NAME` is left, with its entries as
      they were. */
  lemma ActivateKeepsOnlyCurrent(c: Caches)
    requires c.Wf()
    ensures var a := Activated(c);
      && a.Wf()
      && a.order == (if CACHE_NAME in c.order then [CACHE_NAME] else [])
      && (forall n :: n in a.store <==> n in c.store && n == CACHE_NAME)
      && (CACHE_NAME in c.store ==> a.store[CACHE_NAME] == c.store[CACHE_NAME])
  {
    WithoutAllBut(c.order, Stale(c.order), CACHE_NAME);
  }

  /** The stale filter keeps the other names in their listed order: it is
      the list of names with `CACHE_NAME` removed. */
  lemma {:induction false} StaleIsWithoutCurrent(names: seq<string>)
    ensures Stale(names) == Without(names, [CACHE_NAME])
  {
    if names != [] {
      StaleIsWithoutCurrent(names[1..]);
    }
  }

  /** Activating twice leaves the storage as activating once. */
  lemma ActivateIsIdempotent(c: Caches)
    requires c.Wf()
    ensures Activated(Activated(c)) == Activated(c)
  {
    ActivateKeepsOnlyCurrent(c);
    ActivateKeepsOnlyCurrent(Activated(c));
  }

  // ---------------------------------------------------------------------
  // Properties of the install listener

  /** Install always leaves `CACHE_NAME` in place and no other namespace
      changed. If every required entry fetches, `CACHE_NAME` holds what it
      held before, all required entries, and exactly those best-effort
      entries that fetched; otherwise it holds only what it held before. */
  lemma InstallOutcome(c: Caches, origin: string, net: Key -> NetOutcome)
    requires c.Wf()
    ensures var after := Installed(c, origin, net);
      && after.Wf() && CACHE_NAME in after.store
      && (forall n :: n in after.store <==> n in c.store || n == CACHE_NAME)
      && (forall n :: n in c.store && n != CACHE_NAME ==> after.store[n] == c.store[n])
      && (!AllFetched(ManifestKeys(origin, REQUIRED), net) ==> after.store[CACHE_NAME] == Prior(c))
      && (AllFetched(ManifestKeys(origin, REQUIRED), net) ==>
            forall k :: k in after.store[CACHE_NAME]
              <==> k in Prior(c) || k in ManifestKeys(origin, REQUIRED)
                   || (k in ManifestKeys(origin, BEST_EFFORT) && Fetched(net(k)).Some?))
  {
    var required := ManifestKeys(origin, REQUIRED);
    var ready := Opened(c, CACHE_NAME);
    AddEntriesContents(ready.store[CACHE_NAME], required, net);
    AddEntriesContents(AddEntries(ready.store[CACHE_NAME], required, net), ManifestKeys(origin, BEST_EFFORT), net);
    if AllFetched(required, net) {
      forall k | k in required
        ensures Fetched(net(k)).Some?
      {
        var i :| 0 <= i < |required| && required[i] == k;
      }
    }
  }

  /** Two batches of adds: a key present afterwards maps to its fetched
      response if either batch holds it and it fetched, and to its old entry
      otherwise. */
  lemma TwoBatchResponses(before: Entries, first: seq<Key>, second: seq<Key>, net: Key -> NetOutcome, k: Key)
    requires k in AddEntries(AddEntries(before, first, net), second, net)
    ensures var entries := AddEntries(AddEntries(before, first, net), second, net);
      if (k in first || k in second) && Fetched(net(k)).Some?
      then Fetched(net(k)).Some? && entries[k] == Fetched(net(k)).value
      else k in before && entries[k] == before[k]
  {
    var mid := AddEntries(before, first, net);
    AddEntriesContents(before, first, net);
    AddEntriesContents(mid, second, net);
    if k !in second {
      assert k in mid;
    }
  }

  /** What install files under each key of `CACHE_NAME`: after a successful
      install a required key, or a best-effort key that fetched, maps to the
      response its fetch gave; any other key, a best-effort one that failed
      included, keeps the response it had before. */
  lemma InstallResponses(c: Caches, origin: string, net: Key -> NetOutcome, k: Key)
    requires CACHE_NAME in Installed(c, origin, net).store
    requires k in Installed(c, origin, net).store[CACHE_NAME]
    ensures var entries := Installed(c, origin, net).store[CACHE_NAME];
      if AllFetched(ManifestKeys(origin, REQUIRED), net)
         && (k in ManifestKeys(origin, REQUIRED)
             || (k in ManifestKeys(origin, BEST_EFFORT) && Fetched(net(k)).Some?))
      then Fetched(net(k)).Some? && entries[k] == Fetched(net(k)).value
      else k in Prior(c) && entries[k] == Prior(c)[k]
  {
    var required, optional := ManifestKeys(origin, REQUIRED), ManifestKeys(origin, BEST_EFFORT);
    var before := Opened(c, CACHE_NAME).store[CACHE_NAME];
    assert before == Prior(c);
    if AllFetched(required, net) {
      assert Installed(c, origin, net).store[CACHE_NAME]
          == AddEntries(AddEntries(before, required, net), optional, net);
      TwoBatchResponses(before, required, optional, net, k);
      if k in required {
        var i :| 0 <= i < |required| && required[i] == k;
      }
    }
  }

  /** An app-shell entry resolves to an http(s) key among the required keys. */
  lemma ShellKey(origin: string, u: string)
    requires HasPrefix(origin, "http") && u in REQUIRED
    ensures HasPrefix(Resolve(origin, u).url, "http")
    ensures Resolve(origin, u) in ManifestKeys(origin, REQUIRED)
  {
    ManifestTiers();
    ResolveKeepsScheme(origin, u);
    var i :| 0 <= i < |REQUIRED| && REQUIRED[i] == u;
    assert ManifestKeys(origin, REQUIRED)[i] == Resolve(origin, u);
  }

  /** Once install has succeeded, a GET for any app-shell entry is answered
      from the cache storage without the network; after activation it is
      answered with exactly the response install fetched for it. */
  lemma InstalledShellIsServedFromCache(c: Caches, origin: string, net: Key -> NetOutcome,
                                         u: string, req: Request, later: NetOutcome)
    requires c.Wf() && HasPrefix(origin, "http")
    requires AllFetched(ManifestKeys(origin, REQUIRED), net)
    requires u in REQUIRED && req.httpMethod == "GET" && req.url == Resolve(origin, u).url
    ensures Handle(Installed(c, origin, net), origin, req, later).Cached?
    ensures var installed := Installed(c, origin, net);
      && CACHE_NAME in installed.store && KeyOf(req) in installed.store[CACHE_NAME]
      && Fetched(net(KeyOf(req))).Some?
      && installed.store[CACHE_NAME][KeyOf(req)] == Fetched(net(KeyOf(req))).value
      && Handle(Activated(installed), origin, req, later) == Cached(Fetched(net(KeyOf(req))).value)
  {
    var installed := Installed(c, origin, net);
    var k := KeyOf(req);
    ShellKey(origin, u);
    assert k == Resolve(origin, u);
    InstallOutcome(c, origin, net);
    assert Holds(installed.store, CACHE_NAME, k);
    InstallResponses(c, origin, net, k);
    var stored := installed.store[CACHE_NAME][k];
    assert stored == Fetched(net(k)).value;
    assert CACHE_NAME in installed.order;
    ActivateKeepsOnlyCurrent(installed);
    var a := Activated(installed);
    FirstMatchOfOnlyHolder(a.order, a.store, k, CACHE_NAME);
    assert Handle(a, origin, req, later) == Cached(stored);
  }
}
