# AI Tools Hub service worker, modelled in Dafny

The service worker (`sw.js`) of the AI Tools Hub web app sits between the
app's pages and the network and keeps one versioned cache namespace,
`ai-tools-hub-v1`. It has three listeners over the browser's shared cache
storage:

- **install**: opens `CACHE_NAME` and adds the first four manifest entries
  (`/`, `/index.html`, `/css/style.css`, `/js/script.js`) as one all-or-nothing
  batch. Only if that batch succeeds does it add the other three entries
  (`/manifest.json` and two CDN stylesheets) one by one, ignoring any that
  fail, and then call `skipWaiting`.
- **activate**: lists every namespace, deletes each one whose name is not
  `CACHE_NAME`, then claims the open pages.
- **fetch**: leaves non-GET requests and URLs not starting with `"http"` to
  the browser. Otherwise it answers from the cache when any namespace holds
  the request. On a miss it goes to the network and writes a status-200,
  type-`basic` answer back to `CACHE_NAME`. When the network rejects, a
  navigation gets the cached `/index.html` (which may itself be missing) and
  any other request gets a 408 "Request Timeout" response with body
  "Offline".

## Layout

- `Fetch.dfy` (module `Fetch`): requests, responses, network outcomes, cache
  keys, the `startsWith` test and resolution of manifest paths against the
  worker's origin.
- `Policy.dfy` (module `Policy`): `CACHE_NAME`, the manifest and its two
  tiers, and the pure decisions: the interception guards, the cacheability
  test, the offline placeholder, the reply decision `Respond`, and the stale
  namespace filter.
- `Storage.dfy` (module `Storage`): the cache storage. It is a value `Caches`
  (namespace names in creation order, plus each namespace's entries) with
  the pure operations `Lookup`, `Opened`, `Stored`, `DeletedAll` and
  `AddEntries`. It is also a class `CacheStorage` whose methods (`Keys`,
  `Match`, `Open`, `Put`, `Delete`, `Add`, `AddAll`) update it in place. Each
  method is proved to equal the pure operation on the old value.
- `Worker.dfy` (module `Worker`): the class `ServiceWorker` with one method
  per listener, each proved equal to a function of the old storage
  (`Installed`, `Activated`, `Handle` with `AfterFetch`). It also holds the
  lemmas that state what those functions promise.

Modelling choices:

- The network is a parameter. Install receives one `NetOutcome` per key, as
  a function `Key -> NetOutcome`. A fetch event receives the single outcome
  of its own request. `NetOutcome.Ok` carries an `Option<Response>`, so the
  worker's `!response` guard has a case to act on.
- A key is an absolute URL. Manifest paths starting with "/" are resolved
  against the worker's `origin`. This is the host's job, and it is what
  makes `caches.match('/index.html')` and the installed app shell meet the
  URLs of real fetch events.
- `caches.match` searches every namespace in creation order and returns the
  first entry for the key, not only `CACHE_NAME`. Writes go only to
  `CACHE_NAME`.
- `cache.add` keeps a response whose status is 200-299 and not 206.
  `cache.addAll` keeps all its responses or none. Both follow the Cache
  `add`/`addAll` definitions of the W3C Service Workers specification. They
  are an assumption about the host API that `sw.js` itself does not show.

Facts about `sw.js` that the model keeps:

- The manifest has seven entries: four required and three best-effort
  (sw.js:3-12, split at sw.js:23-27).
- `caches.match` at sw.js:66 and sw.js:95 searches all namespaces, not only
  `CACHE_NAME`.
- The offline navigation fallback can come back empty (`Fallback(None)`,
  sw.js:93-96). Then `respondWith` receives `undefined` and the page sees a
  network error.
- The required batch at sw.js:23 is one `cache.addAll`, which the host
  applies all or nothing; it is never partly applied.
- After activation, `CACHE_NAME` is the only namespace that can remain
  (sw.js:45-49). If it did not exist, no namespace remains at all.

## Model

| member | source | states |
|---|---|---|
| `Fetch.HasPrefixIsConcatenation` | sw.js:63 | the `startsWith('http')` test holds exactly when the URL is "http" followed by some string |
| `Fetch.ResolveKeepsScheme` | sw.js:4-7 | a root-relative manifest path resolved against an http(s) origin passes the worker's scheme test |
| `Policy.ManifestTiers` | sw.js:3-27 | `slice(0, 4)` and `slice(4)` split the seven-entry manifest into four required root-relative paths and three best-effort entries |
| `Policy.Stale` | sw.js:45-46 | the filtered names are exactly the listed names other than `CACHE_NAME` |
| `Worker.StaleIsWithoutCurrent` | sw.js:45-46 | the filter keeps the other names in their listed order: it is the name list with `CACHE_NAME` removed |
| `Storage.FirstMatch` | sw.js:66 | `caches.match` finds nothing exactly when no listed namespace holds the key |
| `Storage.FirstMatchIsEarliest` | sw.js:66 | a match is the entry of the earliest namespace, in creation order, that holds the key |
| `Storage.FirstMatchOfOnlyHolder` | sw.js:66 | when only one namespace holds the key, `caches.match` returns that namespace's entry |
| `Storage.Opened` | sw.js:19 | `caches.open` keeps every existing namespace unchanged, creates a missing one, and preserves well-formedness |
| `Storage.Stored` | sw.js:85 | `cache.put` preserves well-formedness of the storage |
| `Storage.DeletedAll` | sw.js:49 | after the deletions, exactly the namespaces not deleted remain, and the storage stays well-formed |
| `Storage.WithoutAllBut` | sw.js:45-49 | deleting every namespace but one from a duplicate-free list leaves that one alone, if it was there |
| `Storage.AddEntriesContents` | sw.js:23-28 | after the adds, a key is present iff it was before or it was added and fetched; an added key that fetched maps to its fetched response whatever the batch order, and every other key keeps its entry |
| `Storage.CacheStorage.Keys` | sw.js:42 | `caches.keys()` returns every namespace name once, in creation order |
| `Storage.CacheStorage.Match` | sw.js:66 | `caches.match` returns the first-namespace lookup, and any result is an entry of a namespace holding the key |
| `Storage.CacheStorage.Open` | sw.js:19 | `caches.open` creates the namespace if absent (last in order) and changes nothing else |
| `Storage.CacheStorage.Put` | sw.js:85 | `cache.put` sets one entry of one existing namespace |
| `Storage.CacheStorage.Delete` | sw.js:49 | `caches.delete` removes the namespace from the names and the store, and reports whether it existed |
| `Storage.CacheStorage.Add` | sw.js:28 | `cache.add` succeeds iff the fetch yields a keepable response, which it then stores; otherwise nothing changes |
| `Storage.CacheStorage.PutEach` | sw.js:23 | once every fetch of the batch succeeded, each response is stored in the namespace and the names stay as they were |
| `Storage.CacheStorage.AddAll` | sw.js:23 | `cache.addAll` succeeds iff every fetch yields a keepable response; then all are stored, otherwise nothing changes |
| `Worker.ServiceWorker.Install` | sw.js:15-35 | install opens `CACHE_NAME`, succeeds iff all four required entries fetch, and adds the best-effort entries only then; `skipWaiting` is reached only on success |
| `Worker.ServiceWorker.CacheEach` | sw.js:26-30 | each best-effort entry is added on its own, and a failing one leaves the others and the outcome untouched |
| `Worker.ServiceWorker.Activate` | sw.js:38-55 | activate deletes every namespace named in the stale filter and then claims the clients |
| `Worker.ServiceWorker.HandleFetch` | sw.js:58-106 | the fetch listener's reply and new storage are those of the request decision over the storage it read |
| `Worker.NotInterceptedIsUntouched` | sw.js:60-63 | a non-GET request or a URL not starting with "http" is passed through, with no reply substituted and nothing stored |
| `Worker.HitIsServedAsCached` | sw.js:66-71 | on a hit the cached response is returned unchanged whatever the network would say, and the storage is unchanged |
| `Worker.CacheableMissIsKept` | sw.js:74-88 | a status-200 `basic` network answer is returned and written to `CACHE_NAME` only: every other namespace survives unchanged and none appears, and the same request then hits without the network |
| `Worker.UncacheableMissIsNotKept` | sw.js:76-79 | a missing, non-200 or non-`basic` network answer is returned and the storage stays exactly as it was |
| `Worker.NetworkFailureFallsBack` | sw.js:90-103 | when the network rejects, a navigation gets the possibly empty `/index.html` lookup, any other request gets the 408 placeholder, and nothing is stored |
| `Worker.ActivateKeepsOnlyCurrent` | sw.js:42-51 | after activation only `CACHE_NAME` can remain, with its entries as they were |
| `Worker.ActivateIsIdempotent` | sw.js:42-51 | activating twice leaves the same storage as activating once |
| `Worker.InstallOutcome` | sw.js:19-31 | install keeps other namespaces unchanged. On success `CACHE_NAME` holds its prior entries, all required entries and exactly the best-effort entries that fetched. On failure it holds only its prior entries |
| `Worker.TwoBatchResponses` | sw.js:23-28 | after two batches of adds, a present key maps to its fetched response if a batch held it and it fetched, and to its old entry otherwise |
| `Worker.InstallResponses` | sw.js:19-31 | after a successful install each required key, and each best-effort key that fetched, maps to its fetched response; every other key of `CACHE_NAME`, a failed best-effort one included, keeps its prior response |
| `Worker.ShellKey` | sw.js:4-7 | every app-shell entry resolves to a required key that the fetch listener intercepts |
| `Worker.InstalledShellIsServedFromCache` | sw.js:23-71 | after a successful install every app-shell entry is a cache hit; after activation it is served with exactly the response install fetched for it |

## Left out

- Logging (`console.log`) is left out: it has no effect on behaviour.
- The `waitUntil` and `respondWith` lifetime plumbing is left out. The
  fire-and-forget write-back (`caches.open(...).then(put)`) is modelled as a
  synchronous open and put that finish before the reply. Its possible
  abandonment, and races between concurrent requests, are concurrency
  concerns outside the model.
- `skipWaiting` and `clients.claim` are recorded only as the flags
  `waitingSkipped` and `clientsClaimed`.
- Real HTTP, `response.clone()`, body streams and headers are left out. The
  network is a parameter, and a clone is the same value.
- Request-key canonicalisation is not modelled: `Vary`, fragment stripping,
  and URL resolution other than for root-relative paths. The host owns it,
  and a key here is the absolute URL.
- The best-effort adds run concurrently in the source; the model adds them
  in manifest order. Each key gets one network outcome, so the resulting
  entries do not depend on that order (`Storage.AddEntriesContents`).
- Two host rejections are not modelled. `addAll` rejects a batch that
  repeats a request; the four required entries are distinct, so this cannot
  happen here. The host also refuses to store a response carrying
  `Vary: *`. For `add` and `addAll` that refusal can be expressed as `Fail`
  for that key. The write-back `cache.put` at sw.js:85 is refused too, but
  `Stored` always writes, because headers are not modelled.
- The source deletes stale namespaces concurrently (`Promise.all`); the
  model deletes them one after another. The deletions touch distinct
  namespaces, so the order does not change the result.
- `caches.delete` never fails in the model, so `Activate` always sets
  `clientsClaimed`. In the source a rejected deletion rejects the
  `Promise.all` (sw.js:44-51), and `clients.claim()` (sw.js:53) is then
  skipped.
- The background-sync, push and notification-click listeners are left out.
  They hold no cache or request logic, only a log line and notification UI
  calls.
