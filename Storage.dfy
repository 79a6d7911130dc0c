/** The browser's cache storage (`caches`), which the worker shares across
    its install, activate and fetch listeners: named namespaces kept in
    creation order, each mapping request keys to responses. */
module Storage {
  import opened Fetch

  type Entries = map<Key, Response>

  predicate NoDup(s: seq<string>) {
    forall i, j :: 0 <= i < j < |s| ==> s[i] != s[j]
  }

  /** Namespace `n` exists and holds an entry for `k`. */
  predicate Holds(store: map<string, Entries>, n: string, k: Key) {
    n in store && k in store[n]
  }

  /** The cache storage as a value: namespace names in creation order (the
      order of `caches.keys()`), and each namespace's entries. */
  datatype Caches = Caches(order: seq<string>, store: map<string, Entries>) {
    ghost predicate Wf() {
      NoDup(order) && forall n :: n in order <==> n in store
    }
  }

  // ---------------------------------------------------------------------
  // Lookup: `caches.match(key)`

  /** The entry for `k` in the first of `names` that has one. */
  function FirstMatch(names: seq<string>, store: map<string, Entries>, k: Key): (r: Option<Response>)
    ensures r.None? <==> forall n :: n in names ==> !Holds(store, n, k)
  {
    if names == [] then None
    else if Holds(store, names[0], k) then Some(store[names[0]][k])
    else FirstMatch(names[1..], store, k)
  }

  /** `caches.match(key)` searches every namespace in creation order. */
  function Lookup(c: Caches, k: Key): Option<Response> {
    FirstMatch(c.order, c.store, k)
  }

  /** A match comes from the earliest namespace that holds the key. */
  lemma {:induction false} FirstMatchIsEarliest(names: seq<string>, store: map<string, Entries>, k: Key)
    requires FirstMatch(names, store, k).Some?
    ensures exists i :: 0 <= i < |names| && Holds(store, names[i], k)
                        && store[names[i]][k] == FirstMatch(names, store, k).value
                        && forall j :: 0 <= j < i ==> !Holds(store, names[j], k)
  {
    if !Holds(store, names[0], k) {
      FirstMatchIsEarliest(names[1..], store, k);
      var i :| 0 <= i < |names[1..]| && Holds(store, names[1..][i], k)
        && store[names[1..][i]][k] == FirstMatch(names[1..], store, k).value
        && forall j :: 0 <= j < i ==> !Holds(store, names[1..][j], k);
      assert Holds(store, names[i + 1], k);
      forall j | 0 <= j < i + 1
        ensures !Holds(store, names[j], k)
      {
        if j > 0 {
          assert names[j] == names[1..][j - 1];
        }
      }
    } else {
      assert Holds(store, names[0], k);
    }
  }

  /** When exactly one listed namespace holds the key, lookup returns its entry. */
  lemma FirstMatchOfOnlyHolder(names: seq<string>, store: map<string, Entries>, k: Key, n: string)
    requires n in names && Holds(store, n, k)
    requires forall m :: m in names && m != n ==> !Holds(store, m, k)
    ensures FirstMatch(names, store, k) == Some(store[n][k])
  {
    FirstMatchIsEarliest(names, store, k);
  }

  // ---------------------------------------------------------------------
  // Updates: `caches.open`, `cache.put`, `caches.delete`

  /** `caches.open(name)`: a missing namespace is created, empty, last in order. */
  function Opened(c: Caches, name: string): (r: Caches)
    ensures name in r.store
    ensures c.Wf() ==> r.Wf()
    ensures forall n :: n in c.store ==> n in r.store && r.store[n] == c.store[n]
    ensures forall n :: n in r.order && n != name ==> n in c.order
  {
    if name in c.store then c
    else Caches(c.order + [name], c.store[name := map[]])
  }

  /** `cache.put(key, response)` on the open namespace `name`. */
  function Stored(c: Caches, name: string, k: Key, resp: Response): (r: Caches)
    requires name in c.store
    ensures c.Wf() ==> r.Wf()
  {
    Caches(c.order, c.store[name := c.store[name][k := resp]])
  }

  /** The names of `names` not listed in `gone`, in their order. */
  function Without(names: seq<string>, gone: seq<string>): (r: seq<string>)
    ensures forall n :: n in r <==> n in names && n !in gone
    ensures NoDup(names) ==> NoDup(r)
  {
    if names == [] then []
    else
      var rest := Without(names[1..], gone);
      if names[0] in gone then rest
      else
        assert NoDup(names) ==> names[0] !in names[1..];
        [names[0]] + rest
  }

  /** The storage after `caches.delete(n)` for every `n` in `names`. */
  function DeletedAll(c: Caches, names: seq<string>): (r: Caches)
    ensures c.Wf() ==> r.Wf()
    ensures forall n :: n in r.store <==> n in c.store && n !in names
  {
    Caches(Without(c.order, names), map n | n in c.store && n !in names :: c.store[n])
  }

  /** Removing nothing keeps every name in place. */
  lemma {:induction false} WithoutNothing(names: seq<string>)
    ensures Without(names, []) == names
  {
    if names != [] {
      WithoutNothing(names[1..]);
    }
  }

  /** Deleting no namespace leaves the storage as it was. */
  lemma DeletedNone(c: Caches)
    ensures DeletedAll(c, []) == c
  {
    WithoutNothing(c.order);
  }

  /** Removing names in two rounds removes their union. */
  lemma {:induction false} WithoutTwice(names: seq<string>, gone: seq<string>, more: seq<string>)
    ensures Without(Without(names, gone), more) == Without(names, gone + more)
  {
    if names != [] {
      WithoutTwice(names[1..], gone, more);
    }
  }

  /** Deleting one more namespace extends the list of deleted ones. */
  lemma DeleteStep(c: Caches, gone: seq<string>, name: string)
    ensures DeletedAll(DeletedAll(c, gone), [name]) == DeletedAll(c, gone + [name])
  {
    WithoutTwice(c.order, gone, [name]);
  }

  /** Without duplicates, keeping only `keep` leaves it alone, if present. */
  lemma {:induction false} WithoutAllBut(names: seq<string>, gone: seq<string>, keep: string)
    requires NoDup(names)
    requires forall n :: n in names ==> (n in gone <==> n != keep)
    ensures Without(names, gone) == if keep in names then [keep] else []
  {
    if names != [] {
      assert NoDup(names[1..]);
      WithoutAllBut(names[1..], gone, keep);
      if names[0] == keep {
        assert keep !in names[1..];
      }
    }
  }

  // ---------------------------------------------------------------------
  // Batches: `cache.add(url)` and `cache.addAll(urls)`

  /** The response `cache.add` keeps from a network outcome: the fetch must
      resolve with a response whose status is ok (200-299) and not 206. */
  function Fetched(out: NetOutcome): Option<Response> {
    if out.Ok? && out.response.Some? && 200 <= out.response.value.status < 300
       && out.response.value.status != 206
    then out.response
    else None
  }

  /** Every key of the batch fetches a response worth keeping. */
  predicate AllFetched(keys: seq<Key>, net: Key -> NetOutcome) {
    forall i :: 0 <= i < |keys| ==> Fetched(net(keys[i])).Some?
  }

  /** `entries` after adding each fetched key of `keys`, one after another. */
  function AddEntries(entries: Entries, keys: seq<Key>, net: Key -> NetOutcome): Entries
    decreases |keys|
  {
    if keys == [] then entries
    else
      var prev := AddEntries(entries, keys[..|keys| - 1], net);
      match Fetched(net(keys[|keys| - 1]))
      case Some(resp) => prev[keys[|keys| - 1] := resp]
      case None => prev
  }

  /** After the adds, a key is present iff it was before or it was added and
      fetched; an added key maps to its fetched response, whatever the order
      of the batch, and every other key, one whose fetch failed included,
      keeps its entry. */
  lemma {:induction false} AddEntriesContents(entries: Entries, keys: seq<Key>, net: Key -> NetOutcome)
    ensures var r := AddEntries(entries, keys, net);
      && (forall k :: k in r <==> k in entries || (k in keys && Fetched(net(k)).Some?))
      && (forall k :: k in keys && Fetched(net(k)).Some? ==> r[k] == Fetched(net(k)).value)
      && (forall k :: k in r && !(k in keys && Fetched(net(k)).Some?) ==> r[k] == entries[k])
    decreases |keys|
  {
    if keys != [] {
      var init := keys[..|keys| - 1];
      AddEntriesContents(entries, init, net);
      assert forall k :: k in keys <==> k in init || k == keys[|keys| - 1];
    }
  }

  /** Adding one more key to a batch: it is kept exactly when it fetched. */
  lemma AddEntriesSnoc(entries: Entries, keys: seq<Key>, k: Key, net: Key -> NetOutcome)
    ensures AddEntries(entries, keys + [k], net)
            == match Fetched(net(k))
               case Some(resp) => AddEntries(entries, keys, net)[k := resp]
               case None => AddEntries(entries, keys, net)
  {
    assert (keys + [k])[..|keys|] == keys;
  }

  /** Adding a batch and then one more key is adding the longer batch. */
  lemma AddEntriesThenOne(entries: Entries, keys: seq<Key>, k: Key, net: Key -> NetOutcome)
    ensures AddEntries(AddEntries(entries, keys, net), [k], net) == AddEntries(entries, keys + [k], net)
  {
    AddEntriesSnoc(entries, keys, k, net);
    AddEntriesSnoc(AddEntries(entries, keys, net), [], k, net);
    assert [] + [k] == [k];
  }

  /** Namespace `name` after `AddEntries`. */
  function Filled(c: Caches, name: string, keys: seq<Key>, net: Key -> NetOutcome): (r: Caches)
    requires name in c.store
    ensures c.Wf() ==> r.Wf()
    ensures r.order == c.order && name in r.store
  {
    Caches(c.order, c.store[name := AddEntries(c.store[name], keys, net)])
  }

  // ---------------------------------------------------------------------
  // The host object

  /** The cache storage the worker's listeners share and update in place. */
  class CacheStorage {
    var order: seq<string>
    var store: map<string, Entries>

    function Value(): Caches
      reads this
    {
      Caches(order, store)
    }

    ghost predicate Valid()
      reads this
    {
      Value().Wf()
    }

    constructor ()
      ensures Valid() && Value() == Caches([], map[])
    {
      order := [];
      store := map[];
    }

    /** `caches.keys()`: every namespace name, in creation order. */
    method Keys() returns (names: seq<string>)
      requires Valid()
      ensures names == order
      ensures NoDup(names) && forall n :: n in names <==> n in store
    {
      names := order;
    }

    /** `caches.match(key)`. */
    method Match(k: Key) returns (r: Option<Response>)
      ensures r == Lookup(Value(), k)
      ensures r.Some? ==> exists n :: n in order && Holds(store, n, k) && store[n][k] == r.value
    {
      r := FirstMatch(order, store, k);
      if r.Some? {
        FirstMatchIsEarliest(order, store, k);
      }
    }

    /** `caches.open(name)`. */
    method Open(name: string)
      requires Valid()
      modifies this
      ensures Valid() && Value() == Opened(old(Value()), name)
    {
      if name !in store {
        order := order + [name];
        store := store[name := map[]];
      }
    }

    /** `cache.put(key, response)` on the namespace `name`. */
    method Put(name: string, k: Key, resp: Response)
      requires Valid() && name in store
      modifies this
      ensures Valid() && Value() == Stored(old(Value()), name, k, resp)
    {
      store := store[name := store[name][k := resp]];
    }

    /** `caches.delete(name)`: resolves with whether the namespace existed. */
    method Delete(name: string) returns (existed: bool)
      requires Valid()
      modifies this
      ensures Valid() && Value() == DeletedAll(old(Value()), [name])
      ensures existed == (name in old(store))
    {
      existed := name in store;
      order := Without(order, [name]);
      store := map n | n in store && n !in [name] :: store[n];
    }

    /** `cache.add(url)` on the namespace `name`: one fetch, kept if it fetched. */
    method Add(name: string, k: Key, net: Key -> NetOutcome) returns (ok: bool)
      requires Valid() && name in store
      modifies this
      ensures Valid() && ok == Fetched(net(k)).Some?
      ensures Value() == Filled(old(Value()), name, [k], net)
    {
      AddEntriesSnoc(store[name], [], k, net);
      assert [] + [k] == [k];
      var fetched := Fetched(net(k));
      ok := fetched.Some?;
      if ok {
        Put(name, k, fetched.value);
      }
    }

    /** `cache.addAll(urls)` on the namespace `name`: all the fetches must
        succeed, and then every response is kept; otherwise nothing is. */
    method AddAll(name: string, keys: seq<Key>, net: Key -> NetOutcome) returns (ok: bool)
      requires Valid() && name in store
      modifies this
      ensures Valid() && ok == AllFetched(keys, net)
      ensures Value() == if ok then Filled(old(Value()), name, keys, net) else old(Value())
    {
      ok := forall i | 0 <= i < |keys| :: Fetched(net(keys[i])).Some?;
      if !ok {
        return;
      }
      PutEach(name, keys, net);
    }

    /** Stores the response of every key of a batch known to fetch. */
    method PutEach(name: string, keys: seq<Key>, net: Key -> NetOutcome)
      requires Valid() && name in store && AllFetched(keys, net)
      modifies this
      ensures Valid() && order == old(order)
      ensures store == old(store)[name := AddEntries(old(store)[name], keys, net)]
    {
      ghost var before := store[name];
      for i := 0 to |keys|
        invariant Valid() && order == old(order)
        invariant store == old(store)[name := AddEntries(before, keys[..i], net)]
      {
        var fetched := Fetched(net(keys[i]));
        assert fetched.Some?;
        AddEntriesSnoc(before, keys[..i], keys[i], net);
        assert keys[..i + 1] == keys[..i] + [keys[i]];
        assert AddEntries(before, keys[..i + 1], net) == AddEntries(before, keys[..i], net)[keys[i] := fetched.value];
        Put(name, keys[i], fetched.value);
      }
      assert keys[..|keys|] == keys;
    }
  }
}
